/**
 What the names of a replacement denote, those of called functions among them, and which of its
 calls pass an object along. Every name written into the call's place denotes what it denotes in
 the call exactly when nothing is captured and no free name of the helper is declared between the
 call and the module, which the inliner's shadow check does not quite ensure.
 */
module InlinerBindings {
  import opened Wrappers
  import opened JsExpr
  import opened JsSemantics
  import opened GuardInversion
  import opened FreshNames
  import opened Inliner
  import opened InlinerSoundness
  import opened InlinerArguments
  import opened InlinerTheorems

  // ----- Resolving a name -----

  /**
   A declaration of an open block, counted from the outermost; a parameter; a temporary; a
   declaration between the call and the module; or the module's.
   */
  datatype Binding = Local(level: nat, x: string) | Param(x: string) | Temp(x: string) | Between(x: string) | Outer(x: string)

  /** The innermost open block that declares `x` decides. */
  function Resolve(blocks: seq<set<string>>, root: Binding, x: string): Binding
    decreases |blocks|
  {
    if blocks == [] then root
    else
      var k := |blocks| - 1;
      if x in blocks[k] then Local(k, x) else Resolve(blocks[..k], root, x)
  }

  /** In the helper. */
  function Own(h: Helper, blocks: seq<set<string>>, x: string): Binding {
    Resolve(blocks, if x in h.params then Param(x) else Outer(x), x)
  }

  /** At the call site. */
  function AtSite(between: set<string>, x: string): Binding {
    if x in between then Between(x) else Outer(x)
  }

  /** In the replacement: its temporaries surround the tail, the call site's names surround those. */
  function Written(temps: set<string>, between: set<string>, blocks: seq<set<string>>, x: string): Binding {
    Resolve(blocks, if x in temps then Temp(x) else AtSite(between, x), x)
  }

  /** The open blocks on both sides, the edits that apply inside them, and what is declared around the call. */
  datatype Place = Place(own: seq<set<string>>, written: seq<set<string>>, sub: map<string, Expr>, between: set<string>)

  function Inside(at: Place, b: Block): Place {
    var sub := at.sub - Locals(b);
    Place(at.own + [Locals(b)], at.written + [Locals(SubstBlock(b, sub))], sub, at.between)
  }

  /**
   What is written for the name `x` of the helper denotes what `x` denotes in the call: a local
   that same declaration, a free name the module's, a parameter its temporary or what
   the names of its argument denote at the call site.
   */
  ghost predicate Kept(h: Helper, left: set<string>, temps: set<string>, at: Place, x: string) {
    var text := if x in at.sub then at.sub[x] else Name(x);
    match Own(h, at.own, x)
    case Local(k, _) => text.Name? && Written(temps, at.between, at.written, text.x) == Local(k, text.x)
    case Param(p) =>
      forall n :: n in Names(text) ==> Written(temps, at.between, at.written, n) == if p in left then AtSite(at.between, n) else Temp(n)
    case _ => text == Name(x) && Written(temps, at.between, at.written, x) == Outer(x)
  }

  ghost predicate ExprKept(h: Helper, left: set<string>, temps: set<string>, at: Place, e: Expr) {
    forall x :: x in Names(e) ==> Kept(h, left, temps, at, x)
  }

  ghost predicate StmtKept(h: Helper, left: set<string>, temps: set<string>, at: Place, s: Stmt)
    decreases s, 0
  {
    match s
    case Do(e) => ExprKept(h, left, temps, at, e)
    case Let(x, e) => Kept(h, left, temps, at, x) && ExprKept(h, left, temps, at, e)
    case Set(x, e) => Kept(h, left, temps, at, x) && ExprKept(h, left, temps, at, e)
    case If(c, t, e) =>
      && ExprKept(h, left, temps, at, c)
      && BlockKept(h, left, temps, Inside(at, t), t)
      && BlockKept(h, left, temps, Inside(at, e), e)
  }

  ghost predicate BlockKept(h: Helper, left: set<string>, temps: set<string>, at: Place, b: Block)
    decreases b, 0
  {
    match b
    case Done => true
    case Then(s, rest) => StmtKept(h, left, temps, at, s) && BlockKept(h, left, temps, at, rest)
  }

  function Temps(h: Helper, args: seq<Expr>, strict: bool, taken: set<string>): set<string> {
    Locals(Prefixed(BuildParams(h, h.params, args, strict, taken).prefix, Done))
  }

  /** Where the tail starts on both sides. */
  function Top(h: Helper, written: set<string>, sub: map<string, Expr>, between: set<string>): Place {
    Place([Locals(h.tail)], [written], sub, between)
  }

  /** Every name of the guards, which stand outside the tail's block, and of the tail. */
  ghost predicate NamesKept(h: Helper, args: seq<Expr>, strict: bool, taken: set<string>, between: set<string>) {
    var r := Build(h, args, strict, taken);
    var left, temps := LeftInPlace(h, h.params, args, strict).Keys, Temps(h, args, strict, taken);
    && (forall i :: 0 <= i < |h.guards| ==> ExprKept(h, left, temps, Place([], [], r.sub, between), h.guards[i]))
    && BlockKept(h, left, temps, Top(h, Locals(r.tail), r.sub, between), h.tail)
  }

  // ----- Branch by branch -----

  lemma {:induction false} ResolvedLevel(blocks: seq<set<string>>, root: Binding, x: string)
    requires !root.Local?
    ensures Resolve(blocks, root, x) == root || (Resolve(blocks, root, x).Local? && Resolve(blocks, root, x).level < |blocks|)
    decreases |blocks|
  {
    if blocks != [] { ResolvedLevel(blocks[..|blocks| - 1], root, x); }
  }

  /** Inside a branch a name is kept if it was kept outside and the branch binds nothing written for it. */
  lemma {:induction false} KeptInside(h: Helper, left: set<string>, temps: set<string>, at: Place, b: Block, x: string)
    requires |at.own| == |at.written|
    ensures Kept(h, left, temps, Inside(at, b), x) <==>
      x in Locals(b) || (Kept(h, left, temps, at, x) && (x in at.sub ==> Names(at.sub[x]) !! Locals(b)))
  {
    var l, inner := Locals(b), Inside(at, b);
    SubstKeepsLocals(b, inner.sub);
    assert inner.own[..|at.own|] == at.own && inner.written[..|at.written|] == at.written;
    if x !in l {
      var text := if x in at.sub then at.sub[x] else Name(x);
      assert text == if x in inner.sub then inner.sub[x] else Name(x);
      ResolvedLevel(at.own, if x in h.params then Param(x) else Outer(x), x);
      assert Own(h, inner.own, x) == Own(h, at.own, x);
      forall n | n in Names(text)
        ensures Written(temps, at.between, inner.written, n) == if n in l then Local(|at.own|, n) else Written(temps, at.between, at.written, n)
      {
      }
    }
  }

  lemma {:induction false} BlockKeptIff(h: Helper, left: set<string>, temps: set<string>, at: Place, b: Block)
    requires |at.own| == |at.written|
    ensures BlockKept(h, left, temps, at, b) <==>
      (forall x :: x in BlockNames(b) ==> Kept(h, left, temps, at, x)) && CaptureFree(b, at.sub)
    decreases b, 0
  {
    if b.Then? {
      BlockKeptIff(h, left, temps, at, b.rest);
      StmtKeptIff(h, left, temps, at, b.s);
      assert forall x :: x in BlockNames(b) <==> x in StmtNames(b.s) || x in BlockNames(b.rest);
    }
  }

  lemma {:induction false} StmtKeptIff(h: Helper, left: set<string>, temps: set<string>, at: Place, s: Stmt)
    requires |at.own| == |at.written|
    ensures StmtKept(h, left, temps, at, s) <==>
      (forall x :: x in StmtNames(s) ==> Kept(h, left, temps, at, x)) &&
      (s.If? ==> BranchFree(s.thn, at.sub) && BranchFree(s.els, at.sub))
    decreases s, 0
  {
    if s.If? {
      BranchKeptIff(h, left, temps, at, s.thn);
      BranchKeptIff(h, left, temps, at, s.els);
      assert forall x :: x in StmtNames(s) <==> x in Names(s.c) || x in BranchNames(s.thn) || x in BranchNames(s.els);
    }
  }

  lemma {:induction false} BranchKeptIff(h: Helper, left: set<string>, temps: set<string>, at: Place, b: Block)
    requires |at.own| == |at.written|
    ensures BlockKept(h, left, temps, Inside(at, b), b) <==>
      (forall x :: x in BranchNames(b) ==> Kept(h, left, temps, at, x)) && BranchFree(b, at.sub)
    decreases b, 1
  {
    BlockKeptIff(h, left, temps, Inside(at, b), b);
    forall x | x in BlockNames(b)
      ensures Kept(h, left, temps, Inside(at, b), x) <==>
        x in Locals(b) || (Kept(h, left, temps, at, x) && (x in at.sub ==> Names(at.sub[x]) !! Locals(b)))
    {
      KeptInside(h, left, temps, at, b, x);
    }
  }

  // ----- The whole replacement -----

  /** A parameter in use is replaced by its argument, or by its temporary, or by `undefined`. */
  ghost predicate TextsOf(h: Helper, params: seq<string>, left: map<string, Expr>, b: Built, taken: set<string>) {
    && (forall p :: p in b.sub <==> p in params && HelperUses(h, p) > 0)
    && (forall p :: p in b.sub ==>
          if p in left then Names(b.sub[p]) == Names(left[p]) && Names(left[p]) <= taken
          else Names(b.sub[p]) <= Locals(Prefixed(b.prefix, Done)))
  }

  lemma {:induction false} BuiltTexts(h: Helper, params: seq<string>, args: seq<Expr>, strict: bool, taken: set<string>, names: set<string>)
    requires Distinct(params) && NamesTaken(args, names)
    ensures TextsOf(h, params, LeftInPlace(h, params, args, strict), BuildParams(h, params, args, strict, taken), names)
    decreases |params|
  {
    if params != [] {
      var b := BuildParam(params[0], First(args), HelperUses(h, params[0]), strict, taken);
      forall i | 0 <= i < |Rest(args)| ensures Names(Rest(args)[i]) <= names { assert Rest(args)[i] == args[i + 1]; }
      BuiltTexts(h, params[1..], Rest(args), strict, b.taken, names);
      LeftAreParams(h, params[1..], Rest(args), strict);
      if b.prefix != [] { assert b.prefix[1..] == []; }
      TextsJoin(h, params, args, strict, b, BuildParams(h, params[1..], Rest(args), strict, b.taken), names);
    }
  }

  lemma {:induction false} TextsJoin(h: Helper, params: seq<string>, args: seq<Expr>, strict: bool, b: Built, r: Built, names: set<string>)
    requires params != [] && Distinct(params)
    requires TextsOf(h, params[1..], LeftInPlace(h, params[1..], Rest(args), strict), r, names)
    requires LeftInPlace(h, params[1..], Rest(args), strict).Keys <= set p | p in params[1..]
    requires b.sub.Keys == if HelperUses(h, params[0]) > 0 then {params[0]} else {}
    requires var left := LeftInPlace(h, params, args, strict);
      HelperUses(h, params[0]) > 0 ==>
        if params[0] in left then Names(b.sub[params[0]]) == Names(left[params[0]]) && Names(left[params[0]]) <= names
        else Names(b.sub[params[0]]) <= Locals(Prefixed(b.prefix, Done))
    ensures TextsOf(h, params, LeftInPlace(h, params, args, strict), Append(b, r), names)
  {
    var p, left := params[0], LeftInPlace(h, params, args, strict);
    PrefixAppendLocals(b.prefix, r.prefix);
    assert p !in params[1..];
    forall q ensures q in params <==> q == p || q in params[1..] {
      if q in params && q != p { assert q in params[1..]; }
    }
  }

  /** What is written for a parameter. */
  lemma {:induction false} ParamTexts(h: Helper, args: seq<Expr>, strict: bool, taken: set<string>)
    requires Admitted(h) && NamesTaken(args, taken)
    ensures var r, left, temps := Build(h, args, strict, taken), LeftInPlace(h, h.params, args, strict), Temps(h, args, strict, taken);
      && temps !! taken
      && (forall p :: p in h.params && p in HelperNames(h) ==> p in r.sub)
      && (forall p :: p in h.params && p in r.sub ==> if p in left then Names(r.sub[p]) <= taken else Names(r.sub[p]) <= temps)
      && (forall x :: x in r.sub ==> x in h.params || x in Locals(h.tail))
      && (forall p :: p in h.params && p in r.sub ==> p in UsedParams(h))
  {
    var b := BuildParams(h, h.params, args, strict, taken);
    BuiltTexts(h, h.params, args, strict, taken, taken);
    TempsFresh(h, h.params, args, strict, taken);
    RenamesOnlyLocals(h.tail, b.taken);
    forall p | p in h.params && p in HelperNames(h) ensures p in b.sub && p !in RenameLocals(h.tail, b.taken) {
      MentionedIsUsed(h, p);
    }
  }

  lemma {:induction false} ResolveOne(block: set<string>, root: Binding, x: string)
    ensures Resolve([block], root, x) == if x in block then Local(0, x) else root
  {
    assert [block][..0] == [];
  }

  lemma {:induction false} TopLocal(h: Helper, left: set<string>, temps: set<string>, written: set<string>, sub: map<string, Expr>, between: set<string>, x: string)
    requires x in Locals(h.tail) && Renamed(x, sub) in written && (x in sub ==> sub[x].Name?)
    ensures Kept(h, left, temps, Top(h, written, sub, between), x)
  {
    var n := Renamed(x, sub);
    ResolveOne(Locals(h.tail), if x in h.params then Param(x) else Outer(x), x);
    ResolveOne(written, if n in temps then Temp(n) else AtSite(between, n), n);
  }

  lemma {:induction false} TopParam(h: Helper, left: set<string>, temps: set<string>, written: set<string>, sub: map<string, Expr>, between: set<string>, x: string)
    requires x in h.params && x !in Locals(h.tail) && x in sub
    requires if x in left then Names(sub[x]) !! temps else Names(sub[x]) <= temps
    ensures Kept(h, left, temps, Top(h, written, sub, between), x) <==> Names(sub[x]) !! written
  {
    ResolveOne(Locals(h.tail), Param(x), x);
    forall n
      ensures Written(temps, between, [written], n) == if n in written then Local(0, n) else if n in temps then Temp(n) else AtSite(between, n)
    {
      ResolveOne(written, if n in temps then Temp(n) else AtSite(between, n), n);
    }
  }

  lemma {:induction false} TopFree(h: Helper, left: set<string>, temps: set<string>, written: set<string>, sub: map<string, Expr>, between: set<string>, x: string)
    requires x !in h.params && x !in Locals(h.tail) && x !in sub
    ensures Kept(h, left, temps, Top(h, written, sub, between), x) <==> x !in written && x !in temps && x !in between
  {
    ResolveOne(Locals(h.tail), Outer(x), x);
    ResolveOne(written, if x in temps then Temp(x) else AtSite(between, x), x);
  }

  /** The outermost names of the replacement: the tail's own, its temporaries, and those around. */
  lemma {:induction false} TopNames(h: Helper, args: seq<Expr>, strict: bool, taken: set<string>)
    requires Admitted(h) && NamesTaken(args, taken)
    ensures var r, temps := Build(h, args, strict, taken), Temps(h, args, strict, taken);
      && Introduced(r) == (if h.guards == [] then temps + Locals(r.tail) else temps)
      && (h.guards != [] ==> r.sub.Keys !! Locals(h.tail) && Locals(r.tail) == Locals(h.tail))
      && (h.guards == [] ==> Locals(r.tail) !! temps + taken)
      && (forall y :: y in Locals(h.tail) ==> Renamed(y, r.sub) in Locals(r.tail) && (y in r.sub ==> r.sub[y].Name?))
  {
    var b, r := BuildParams(h, h.params, args, strict, taken), Build(h, args, strict, taken);
    TempsFresh(h, h.params, args, strict, taken);
    PrefixLocals(b.prefix, r.tail);
    SubstLocals(h.tail, r.sub);
    SubDomain(h, h.params, args, strict, taken);
    if h.guards != [] {
      SubstKeepsLocals(h.tail, r.sub);
    } else {
      PlacedNames(h, args, strict, taken);
      RenamesApart(h.tail, b.taken);
    }
  }

  /** A name of the tail, before any branch. */
  lemma {:induction false} TopKeptIff(h: Helper, args: seq<Expr>, strict: bool, taken: set<string>, between: set<string>, x: string)
    requires Admitted(h) && NamesTaken(args, taken) && x in BlockNames(h.tail)
    ensures var r := Build(h, args, strict, taken);
      Kept(h, LeftInPlace(h, h.params, args, strict).Keys, Temps(h, args, strict, taken), Top(h, Locals(r.tail), r.sub, between), x) <==>
        (x in Free(h) ==> x !in Introduced(r) && x !in between) && (h.guards != [] && x in r.sub ==> Names(r.sub[x]) !! Locals(h.tail))
  {
    var r, left, temps := Build(h, args, strict, taken), LeftInPlace(h, h.params, args, strict).Keys, Temps(h, args, strict, taken);
    TopNames(h, args, strict, taken);
    ParamTexts(h, args, strict, taken);
    if x in Locals(h.tail) {
      TopLocal(h, left, temps, Locals(r.tail), r.sub, between, x);
    } else if x in h.params {
      TopParam(h, left, temps, Locals(r.tail), r.sub, between, x);
    } else {
      TopFree(h, left, temps, Locals(r.tail), r.sub, between, x);
    }
  }

  lemma {:induction false} GuardKeptIff(h: Helper, args: seq<Expr>, strict: bool, taken: set<string>, between: set<string>, x: string)
    requires Admitted(h) && NamesTaken(args, taken) && h.guards != [] && x in GuardNames(h.guards)
    ensures var r := Build(h, args, strict, taken);
      Kept(h, LeftInPlace(h, h.params, args, strict).Keys, Temps(h, args, strict, taken), Place([], [], r.sub, between), x) <==>
        (x in Free(h) ==> x !in Introduced(r) && x !in between)
  {
    ParamTexts(h, args, strict, taken);
  }

  /**
   Every name of the replacement denotes what it denotes in the call exactly when the fresh names
   miss the helper's free names, no local of the tail captures what was written for a name, and no
   free name is declared between the call and the module.
   */
  lemma {:induction false} NamesKeptIff(h: Helper, args: seq<Expr>, strict: bool, taken: set<string>, between: set<string>)
    requires Admitted(h) && NamesTaken(args, taken)
    ensures NamesKept(h, args, strict, taken, between) <==> NoCapture(h, Build(h, args, strict, taken)) && Free(h) !! between
  {
    var r := Build(h, args, strict, taken);
    var left, temps := LeftInPlace(h, h.params, args, strict).Keys, Temps(h, args, strict, taken);
    var top := Top(h, Locals(r.tail), r.sub, between);
    BlockKeptIff(h, left, temps, top, h.tail);
    forall x | x in BlockNames(h.tail)
      ensures Kept(h, left, temps, top, x) <==>
        (x in Free(h) ==> x !in Introduced(r) && x !in between) && (h.guards != [] && x in r.sub ==> Names(r.sub[x]) !! Locals(h.tail))
    {
      TopKeptIff(h, args, strict, taken, between, x);
    }
    GuardsKeptIff(h, args, strict, taken, between);
  }

  lemma {:induction false} GuardsKeptIff(h: Helper, args: seq<Expr>, strict: bool, taken: set<string>, between: set<string>)
    requires Admitted(h) && NamesTaken(args, taken)
    ensures var r := Build(h, args, strict, taken);
      var left, temps := LeftInPlace(h, h.params, args, strict).Keys, Temps(h, args, strict, taken);
      (forall i :: 0 <= i < |h.guards| ==> ExprKept(h, left, temps, Place([], [], r.sub, between), h.guards[i])) <==>
        forall x :: x in GuardNames(h.guards) && x in Free(h) ==> x !in Introduced(r) && x !in between
  {
    var r := Build(h, args, strict, taken);
    var left, temps := LeftInPlace(h, h.params, args, strict).Keys, Temps(h, args, strict, taken);
    GuardNamesCover(h.guards);
    if h.guards != [] {
      forall x | x in GuardNames(h.guards)
        ensures Kept(h, left, temps, Place([], [], r.sub, between), x) <==> (x in Free(h) ==> x !in Introduced(r) && x !in between)
      {
        GuardKeptIff(h, args, strict, taken, between, x);
      }
      NamedByAGuard(h.guards);
    }
  }

  lemma {:induction false} NamedByAGuard(gs: seq<Expr>)
    ensures forall x :: x in GuardNames(gs) ==> exists i :: 0 <= i < |gs| && x in Names(gs[i])
    decreases |gs|
  {
    if gs != [] {
      NamedByAGuard(gs[1..]);
      forall x | x in GuardNames(gs) ensures exists i :: 0 <= i < |gs| && x in Names(gs[i]) {
        if x in Names(gs[0]) { assert x in Names(gs[0]); }
        else {
          assert x in GuardNames(gs[1..]);
          var i :| 0 <= i < |gs[1..]| && x in Names(gs[1..][i]);
          assert gs[1..][i] == gs[i + 1];
        }
      }
    }
  }

  // ----- The shadow check -----

  /** Every identifier in the text of a statement, whatever block it belongs to. */
  function StmtTexts(s: Stmt): set<string>
    decreases s
  {
    match s
    case Do(e) => Names(e)
    case Let(x, e) => {x} + Names(e)
    case Set(x, e) => {x} + Names(e)
    case If(c, t, e) => Names(c) + BlockTexts(t) + BlockTexts(e)
  }

  function BlockTexts(b: Block): set<string>
    decreases b
  {
    match b
    case Done => {}
    case Then(s, rest) => StmtTexts(s) + BlockTexts(rest)
  }

  /** Every name declared in a block or in a branch of it. */
  function Declared(b: Block): set<string>
    decreases b
  {
    match b
    case Done => {}
    case Then(Let(x, _), rest) => {x} + Declared(rest)
    case Then(If(_, t, e), rest) => Declared(t) + Declared(e) + Declared(rest)
    case Then(_, rest) => Declared(rest)
  }

  /** The free names the inliner computes: a name declared anywhere in the body is not among them. */
  function ComputedFree(h: Helper): set<string> {
    GuardNames(h.guards) + BlockTexts(h.tail) - ParamSet(h) - Declared(h.tail)
  }

  lemma {:induction false} LocalsDeclared(b: Block)
    ensures Locals(b) <= Declared(b)
    decreases b
  {
    if b.Then? { LocalsDeclared(b.rest); }
  }

  lemma {:induction false} TextsAreNames(b: Block)
    ensures BlockNames(b) <= BlockTexts(b) <= BlockNames(b) + Declared(b)
    decreases b
  {
    if b.Then? {
      TextsAreNames(b.rest);
      if b.s.If? {
        TextsAreNames(b.s.thn);
        TextsAreNames(b.s.els);
        LocalsDeclared(b.s.thn);
        LocalsDeclared(b.s.els);
      }
    }
  }

  /** The computed free names are the free names, less those some branch also declares. */
  lemma {:induction false} ComputedFreeIs(h: Helper)
    requires Admitted(h)
    ensures ComputedFree(h) == Free(h) - Declared(h.tail)
  {
    TextsAreNames(h.tail);
    LocalsDeclared(h.tail);
  }

  /** Once the shadow check has passed, what is left to ask of the names declared around the call. */
  lemma {:induction false} CheckedNamesKeptIff(h: Helper, args: seq<Expr>, strict: bool, taken: set<string>, between: set<string>)
    requires Admitted(h) && NamesTaken(args, taken) && ComputedFree(h) !! between
    ensures NamesKept(h, args, strict, taken, between) <==>
      NoCapture(h, Build(h, args, strict, taken)) && Free(h) * Declared(h.tail) !! between
  {
    NamesKeptIff(h, args, strict, taken, between);
    ComputedFreeIs(h);
  }

  // ----- Receivers -----

  /** Every call of `e` is a call of a method exactly when it still is one after the edits. */
  predicate CallsAlike(e: Expr, sub: map<string, Expr>)
    decreases e
  {
    match e
    case Lit(_) | Name(_) => true
    case Get(o, _) => CallsAlike(o, sub)
    case Call(c, args) => (Method(Subst(c, sub)) <==> Method(c)) && CallsAlike(c, sub) && ArgsAlike(args, sub)
    case Not(x) => CallsAlike(x, sub)
    case Bin(_, l, r) => CallsAlike(l, sub) && CallsAlike(r, sub)
    case Paren(x) => CallsAlike(x, sub)
  }

  predicate ArgsAlike(args: Args, sub: map<string, Expr>)
    decreases args
  {
    match args
    case NoArgs => true
    case Arg(h, t) => CallsAlike(h, sub) && ArgsAlike(t, sub)
  }

  predicate BlockAlike(b: Block, sub: map<string, Expr>)
    decreases b
  {
    match b
    case Done => true
    case Then(Do(e), rest) => CallsAlike(e, sub) && BlockAlike(rest, sub)
    case Then(Let(_, e), rest) => CallsAlike(e, sub) && BlockAlike(rest, sub)
    case Then(Set(_, e), rest) => CallsAlike(e, sub) && BlockAlike(rest, sub)
    case Then(If(c, t, e), rest) =>
      && CallsAlike(c, sub) && BlockAlike(t, sub - Locals(t)) && BlockAlike(e, sub - Locals(e))
      && BlockAlike(rest, sub)
  }

  lemma {:induction false} MethodAfter(c: Expr, sub: map<string, Expr>)
    ensures (Method(Subst(c, sub)) <==> Method(c)) <==>
      (StripParens(c).Name? && StripParens(c).x in sub ==> !Method(sub[StripParens(c).x]))
    decreases c
  {
    if c.Paren? { MethodAfter(c.inner, sub); }
  }

  lemma {:induction false} CallsAlikeIff(e: Expr, sub: map<string, Expr>)
    ensures CallsAlike(e, sub) <==> CalledPlain(Called(e), sub)
    decreases e
  {
    match e
    case Get(o, _) => CallsAlikeIff(o, sub);
    case Call(c, args) =>
      MethodAfter(c, sub);
      CallsAlikeIff(c, sub);
      ArgsAlikeIff(args, sub);
      var n := StripParens(c);
      CalledTogether(if n.Name? then {n.x} else {}, Called(c), sub);
      CalledTogether((if n.Name? then {n.x} else {}) + Called(c), ArgsCalled(args), sub);
    case Not(x) => CallsAlikeIff(x, sub);
    case Bin(_, l, r) =>
      CallsAlikeIff(l, sub);
      CallsAlikeIff(r, sub);
      CalledTogether(Called(l), Called(r), sub);
    case Paren(x) => CallsAlikeIff(x, sub);
    case _ =>
  }

  lemma {:induction false} CalledTogether(a: set<string>, b: set<string>, sub: map<string, Expr>)
    ensures CalledPlain(a + b, sub) <==> CalledPlain(a, sub) && CalledPlain(b, sub)
  {
  }

  lemma {:induction false} ArgsAlikeIff(args: Args, sub: map<string, Expr>)
    ensures ArgsAlike(args, sub) <==> CalledPlain(ArgsCalled(args), sub)
    decreases args
  {
    if args.Arg? {
      CallsAlikeIff(args.hd, sub);
      ArgsAlikeIff(args.tl, sub);
      CalledTogether(Called(args.hd), ArgsCalled(args.tl), sub);
    }
  }

  lemma {:induction false} BlockAlikeIff(b: Block, sub: map<string, Expr>)
    ensures BlockAlike(b, sub) <==> CalledPlain(BlockCalled(b), sub)
    decreases b
  {
    match b
    case Done =>
    case Then(s, rest) =>
      BlockAlikeIff(rest, sub);
      CalledTogether(StmtCalled(s), BlockCalled(rest), sub);
      match s {
        case Do(e) => CallsAlikeIff(e, sub);
        case Let(_, e) => CallsAlikeIff(e, sub);
        case Set(_, e) => CallsAlikeIff(e, sub);
        case If(c, t, e) =>
          CallsAlikeIff(c, sub);
          BlockAlikeIff(t, sub - Locals(t));
          BlockAlikeIff(e, sub - Locals(e));
          assert CalledPlain(BlockCalled(t), sub - Locals(t)) <==> CalledPlain(BlockCalled(t) - Locals(t), sub);
          assert CalledPlain(BlockCalled(e), sub - Locals(e)) <==> CalledPlain(BlockCalled(e) - Locals(e), sub);
          CalledTogether(Called(c), BlockCalled(t) - Locals(t), sub);
          CalledTogether(Called(c) + (BlockCalled(t) - Locals(t)), BlockCalled(e) - Locals(e), sub);
      }
  }

  lemma {:induction false} GuardsAlikeIff(gs: seq<Expr>, sub: map<string, Expr>)
    ensures (forall i :: 0 <= i < |gs| ==> CallsAlike(gs[i], sub)) <==> CalledPlain(GuardCalled(gs), sub)
    decreases |gs|
  {
    if gs != [] {
      CallsAlikeIff(gs[0], sub);
      GuardsAlikeIff(gs[1..], sub);
      CalledTogether(Called(gs[0]), GuardCalled(gs[1..]), sub);
      assert forall i :: 0 < i < |gs| ==> gs[i] == gs[1..][i - 1];
    }
  }

  /**
   Every call of the replacement passes a receiver exactly when the helper's own call does, if and
   only if no parameter the helper calls is replaced by a member access.
   */
  lemma {:induction false} ReceiversKeptIff(h: Helper, r: Replacement)
    ensures (forall i :: 0 <= i < |h.guards| ==> CallsAlike(h.guards[i], r.sub)) && BlockAlike(h.tail, r.sub) <==> NoReceiver(h, r)
  {
    GuardsAlikeIff(h.guards, r.sub);
    BlockAlikeIff(h.tail, r.sub);
    CalledTogether(GuardCalled(h.guards), BlockCalled(h.tail), r.sub);
  }
}
