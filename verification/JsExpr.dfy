/**
 The expression language the inliner rewrites, its printer, and a reader for the printed
 text. The reader follows the operator precedences of section 13 of ECMA-262: logical OR
 below logical AND, below equality, below relational, below unary NOT, below member access and calls.
 All binary operators associate to the left.
 */
module JsExpr {
  import opened Wrappers

  datatype Value = Undefined | Null | NaN | Bool(b: bool) | Number(n: int) | Str(s: string) | Ref(id: nat)

  datatype Op = Or | And | StrictEq | StrictNe | LooseEq | LooseNe | Lt | Gt | Le | Ge

  datatype Expr =
    | Lit(v: Value)
    | Name(x: string)
    | Get(obj: Expr, field: string)
    | Call(callee: Expr, args: Args)
    | Not(e: Expr)
    | Bin(op: Op, l: Expr, r: Expr)
    | Paren(inner: Expr)

  datatype Args = NoArgs | Arg(hd: Expr, tl: Args)

  datatype Token =
    | TLit(v: Value)
    | TName(x: string)
    | TDot(field: string)
    | TOp(op: Op)
    | TNot
    | TOpen
    | TClose
    | TComma

  const LEVEL_OR: nat := 1
  const LEVEL_AND: nat := 2
  const LEVEL_EQ: nat := 3
  const LEVEL_REL: nat := 4
  const LEVEL_UNARY: nat := 5
  const LEVEL_MEMBER: nat := 6
  const LEVEL_PRIMARY: nat := 7

  /** Binding strength of a binary operator; a larger level binds tighter. */
  function Level(op: Op): nat {
    match op
    case Or => LEVEL_OR
    case And => LEVEL_AND
    case StrictEq | StrictNe | LooseEq | LooseNe => LEVEL_EQ
    case Lt | Gt | Le | Ge => LEVEL_REL
  }

  function TokenLevel(t: Token): nat {
    match t
    case TOp(op) => Level(op)
    case TDot(_) | TOpen => LEVEL_MEMBER
    case _ => 0
  }

  // ----- Printing -----

  function Print(e: Expr): seq<Token> {
    match e
    case Lit(v) => [TLit(v)]
    case Name(x) => [TName(x)]
    case Get(o, f) => Print(o) + [TDot(f)]
    case Call(c, args) => Print(c) + [TOpen] + PrintArgs(args)
    case Not(x) => [TNot] + Print(x)
    case Bin(op, l, r) => Print(l) + [TOp(op)] + Print(r)
    case Paren(x) => [TOpen] + Print(x) + [TClose]
  }

  /** Argument list including its closing parenthesis. */
  function PrintArgs(args: Args): seq<Token> {
    match args
    case NoArgs => [TClose]
    case Arg(h, NoArgs) => Print(h) + [TClose]
    case Arg(h, t) => Print(h) + [TComma] + PrintArgs(t)
  }

  predicate Numeral(e: Expr) {
    e.Lit? && e.v.Number?
  }

  /**
   `e` may stand where the grammar asks for level `k`: no operand binds looser than its
   position allows, and no numeric literal is followed by a dot (`5.f` is not a member
   access). A tree read from source text always fits.
   */
  predicate Fits(k: nat, e: Expr)
    decreases e
  {
    match e
    case Lit(_) | Name(_) => true
    case Get(o, _) => k <= LEVEL_MEMBER && Fits(LEVEL_MEMBER, o) && !Numeral(o)
    case Call(c, args) => k <= LEVEL_MEMBER && Fits(LEVEL_MEMBER, c) && FitsArgs(args)
    case Not(x) => k <= LEVEL_UNARY && Fits(LEVEL_UNARY, x)
    case Bin(op, l, r) => k <= Level(op) && Fits(Level(op), l) && Fits(Level(op) + 1, r)
    case Paren(x) => Fits(LEVEL_OR, x)
  }

  predicate FitsArgs(args: Args)
    decreases args
  {
    match args
    case NoArgs => true
    case Arg(h, t) => Fits(LEVEL_OR, h) && FitsArgs(t)
  }

  lemma {:induction false} FitsLower(j: nat, k: nat, e: Expr)
    requires j <= k && Fits(k, e)
    ensures Fits(j, e)
  {
  }

  // ----- Reading -----

  type Read<+T> = Option<(T, seq<Token>)>

  /** Reads one expression of level `k` from the front of `ts`. */
  function Parse(k: nat, ts: seq<Token>): (r: Read<Expr>)
    requires LEVEL_OR <= k <= LEVEL_PRIMARY
    ensures r.Some? ==> |r.value.1| < |ts|
    decreases |ts|, LEVEL_PRIMARY - k + 1
  {
    if k == LEVEL_PRIMARY then
      ParsePrimary(ts)
    else if k == LEVEL_UNARY then
      if ts != [] && ts[0].TNot? then
        var (e, rest) :- Parse(LEVEL_UNARY, ts[1..]);
        Some((Not(e), rest))
      else
        Parse(LEVEL_MEMBER, ts)
    else
      var (e, rest) :- Parse(k + 1, ts);
      Tail(k, e, rest)
  }

  /** Extends `left` with the operators of exactly level `k` that follow it. */
  function Tail(k: nat, left: Expr, ts: seq<Token>): (r: Read<Expr>)
    requires LEVEL_OR <= k <= LEVEL_MEMBER && k != LEVEL_UNARY
    ensures r.Some? ==> |r.value.1| <= |ts|
    decreases |ts|, 0
  {
    if ts == [] || TokenLevel(ts[0]) != k then
      Some((left, ts))
    else if ts[0].TDot? then
      if Numeral(left) then None else Tail(k, Get(left, ts[0].field), ts[1..])
    else if ts[0].TOpen? then
      var (args, rest) :- ParseArgs(ts[1..]);
      Tail(k, Call(left, args), rest)
    else
      var (right, rest) :- Parse(k + 1, ts[1..]);
      Tail(k, Bin(ts[0].op, left, right), rest)
  }

  function ParsePrimary(ts: seq<Token>): (r: Read<Expr>)
    ensures r.Some? ==> |r.value.1| < |ts|
    decreases |ts|, 0
  {
    if ts == [] then None
    else match ts[0]
      case TLit(v) => Some((Lit(v), ts[1..]))
      case TName(x) => Some((Name(x), ts[1..]))
      case TOpen =>
        var (e, rest) :- Parse(LEVEL_OR, ts[1..]);
        if rest != [] && rest[0].TClose? then Some((Paren(e), rest[1..])) else None
      case _ => None
  }

  function ParseArgs(ts: seq<Token>): (r: Read<Args>)
    ensures r.Some? ==> |r.value.1| < |ts|
    decreases |ts|, LEVEL_PRIMARY + 2
  {
    if ts != [] && ts[0].TClose? then
      Some((NoArgs, ts[1..]))
    else
      var (h, rest) :- Parse(LEVEL_OR, ts);
      if rest == [] then None
      else if rest[0].TClose? then Some((Arg(h, NoArgs), rest[1..]))
      else if rest[0].TComma? && !(|rest| > 1 && rest[1].TClose?) then
        var (t, rest') :- ParseArgs(rest[1..]);
        Some((Arg(h, t), rest'))
      else None
  }

  /** Reads the whole text as one expression. */
  function ParseAll(ts: seq<Token>): Option<Expr> {
    var (e, rest) :- Parse(LEVEL_OR, ts);
    if rest == [] then Some(e) else None
  }

  // ----- The printed form reads back -----

  /** Text following an expression read at level `k` that the reader must leave alone. */
  predicate Stops(k: nat, s: seq<Token>) {
    s == [] || TokenLevel(s[0]) <= k
  }

  /** What reading `e` at level `k` leaves to do with the text after it. */
  function Resume(k: nat, e: Expr, s: seq<Token>): Read<Expr>
    requires LEVEL_OR <= k <= LEVEL_PRIMARY
  {
    if k == LEVEL_PRIMARY || k == LEVEL_UNARY then Some((e, s)) else Tail(k, e, s)
  }

  lemma {:induction false} FirstToken(k: nat, e: Expr)
    requires Fits(k, e)
    ensures Print(e) != [] && !Print(e)[0].TClose?
    ensures LEVEL_UNARY < k ==> !Print(e)[0].TNot?
    decreases e
  {
    match e
    case Bin(op, l, r) => FirstToken(Level(op), l);
    case Get(o, f) => FirstToken(LEVEL_MEMBER, o);
    case Call(c, _) => FirstToken(LEVEL_MEMBER, c);
    case _ =>
  }

  /** Level at which the outermost construct of `e` is read. */
  function OwnLevel(e: Expr): (k: nat)
    ensures LEVEL_OR <= k <= LEVEL_PRIMARY
  {
    match e
    case Bin(op, _, _) => Level(op)
    case Not(_) => LEVEL_UNARY
    case Get(_, _) | Call(_, _) => LEVEL_MEMBER
    case _ => LEVEL_PRIMARY
  }

  /** Reading at a looser level than the construct's own passes through unchanged. */
  lemma {:induction false} Descend(k: nat, e: Expr, s: seq<Token>)
    requires LEVEL_OR <= k < OwnLevel(e) && Fits(OwnLevel(e), e)
    requires Stops(k, s)
    requires Parse(k + 1, Print(e) + s) == Resume(k + 1, e, s)
    ensures Parse(k, Print(e) + s) == Resume(k, e, s)
  {
    FirstToken(OwnLevel(e), e);
    assert (Print(e) + s)[0] == Print(e)[0];
    if k + 1 == LEVEL_MEMBER {
      assert Tail(LEVEL_MEMBER, e, s) == Some((e, s));
    } else if k + 1 < LEVEL_UNARY {
      assert Tail(k + 1, e, s) == Some((e, s));
    }
  }

  lemma {:induction false} FitsOwnLevel(k: nat, e: Expr)
    requires Fits(k, e)
    ensures k <= OwnLevel(e) || OwnLevel(e) == LEVEL_PRIMARY
    ensures Fits(OwnLevel(e), e)
  {
  }

  /** After an operator of its own level the reader takes the operand and goes on. */
  lemma {:induction false} TailTakes(op: Op, l: Expr, r: Expr, ts: seq<Token>, s: seq<Token>)
    requires ts != [] && ts[0] == TOp(op) && Parse(Level(op) + 1, ts[1..]) == Some((r, s))
    ensures Tail(Level(op), l, ts) == Tail(Level(op), Bin(op, l, r), s)
  {
  }

  lemma {:induction false} OperandStops(op: Op, r: Expr, s: seq<Token>)
    requires Stops(Level(op), s)
    ensures Resume(Level(op) + 1, r, s) == Some((r, s))
  {
  }

  lemma {:induction false} ReadBinFrom(op: Op, l: Expr, r: Expr, all: seq<Token>, ts: seq<Token>, right: seq<Token>, s: seq<Token>)
    requires Stops(Level(op), s) && ts != [] && ts[0] == TOp(op) && ts[1..] == right
    requires Parse(Level(op), all) == Tail(Level(op), l, ts)
    requires Parse(Level(op) + 1, right) == Resume(Level(op) + 1, r, s)
    ensures Parse(Level(op), all) == Tail(Level(op), Bin(op, l, r), s)
  {
    OperandStops(op, r, s);
    TailTakes(op, l, r, ts, s);
  }

  lemma {:induction false} PrintBin(op: Op, l: Expr, r: Expr, s: seq<Token>)
    ensures Print(Bin(op, l, r)) + s == Print(l) + ([TOp(op)] + Print(r) + s)
    ensures ([TOp(op)] + Print(r) + s)[1..] == Print(r) + s
  {
  }

  lemma {:induction false} ReadBin(op: Op, l: Expr, r: Expr, s: seq<Token>)
    requires Stops(Level(op), s)
    requires var s' := [TOp(op)] + Print(r) + s; Parse(Level(op), Print(l) + s') == Tail(Level(op), l, s')
    requires Parse(Level(op) + 1, Print(r) + s) == Resume(Level(op) + 1, r, s)
    ensures Parse(Level(op), Print(Bin(op, l, r)) + s) == Tail(Level(op), Bin(op, l, r), s)
  {
    var s' := [TOp(op)] + Print(r) + s;
    PrintBin(op, l, r, s);
    ReadBinFrom(op, l, r, Print(l) + s', s', Print(r) + s, s);
  }

  lemma {:induction false} ReadGet(o: Expr, f: string, s: seq<Token>)
    requires !Numeral(o)
    requires var s' := [TDot(f)] + s; Parse(LEVEL_MEMBER, Print(o) + s') == Tail(LEVEL_MEMBER, o, s')
    ensures Parse(LEVEL_MEMBER, Print(Get(o, f)) + s) == Tail(LEVEL_MEMBER, Get(o, f), s)
  {
    var s' := [TDot(f)] + s;
    assert Print(Get(o, f)) + s == Print(o) + s';
    assert s'[1..] == s;
    assert s'[0] == TDot(f);
  }

  lemma {:induction false} ReadNot(x: Expr, s: seq<Token>)
    requires Parse(LEVEL_UNARY, Print(x) + s) == Some((x, s))
    ensures Parse(LEVEL_UNARY, Print(Not(x)) + s) == Some((Not(x), s))
  {
    var ts := Print(Not(x)) + s;
    assert ts[1..] == Print(x) + s;
    assert ts[0] == TNot;
  }

  lemma {:induction false} ReadParen(x: Expr, s: seq<Token>)
    requires var s' := [TClose] + s; Parse(LEVEL_OR, Print(x) + s') == Tail(LEVEL_OR, x, s')
    ensures Parse(LEVEL_PRIMARY, Print(Paren(x)) + s) == Some((Paren(x), s))
  {
    var ts, s' := Print(Paren(x)) + s, [TClose] + s;
    assert ts[1..] == Print(x) + s';
    assert ts[0] == TOpen && s'[0] == TClose && s'[1..] == s;
    assert Tail(LEVEL_OR, x, s') == Some((x, s'));
    assert ParsePrimary(ts) == Some((Paren(x), s));
  }

  lemma {:induction false} ReadCall(c: Expr, args: Args, s: seq<Token>)
    requires ParseArgs(PrintArgs(args) + s) == Some((args, s))
    requires var s' := [TOpen] + PrintArgs(args) + s; Parse(LEVEL_MEMBER, Print(c) + s') == Tail(LEVEL_MEMBER, c, s')
    ensures Parse(LEVEL_MEMBER, Print(Call(c, args)) + s) == Tail(LEVEL_MEMBER, Call(c, args), s)
  {
    var s' := [TOpen] + PrintArgs(args) + s;
    assert Print(Call(c, args)) + s == Print(c) + s';
    assert s'[1..] == PrintArgs(args) + s;
    assert s'[0] == TOpen;
  }

  lemma {:induction false} ReadLeaf(e: Expr, s: seq<Token>)
    requires e.Lit? || e.Name?
    requires Stops(LEVEL_PRIMARY, s)
    ensures Parse(LEVEL_PRIMARY, Print(e) + s) == Some((e, s))
  {
    var ts := Print(e) + s;
    assert ts[1..] == s;
    assert ParsePrimary(ts) == Some((e, s));
  }

  /** What follows a printed expression decides how the reader goes on after it. */
  lemma {:induction false} ReadPrinted(k: nat, e: Expr, s: seq<Token>)
    requires LEVEL_OR <= k <= LEVEL_PRIMARY
    requires Fits(k, e) && Stops(k, s)
    ensures Parse(k, Print(e) + s) == Resume(k, e, s)
    decreases e, LEVEL_PRIMARY - k, 1
  {
    FitsOwnLevel(k, e);
    if k < OwnLevel(e) {
      FitsLower(k + 1, OwnLevel(e), e);
      ReadPrinted(k + 1, e, s);
      Descend(k, e, s);
    } else if e.Bin? {
      ReadPrinted(k, e.l, [TOp(e.op)] + Print(e.r) + s);
      ReadPrinted(k + 1, e.r, s);
      ReadBin(e.op, e.l, e.r, s);
    } else {
      ReadPrintedOwn(k, e, s);
    }
  }

  lemma {:induction false} ReadPrintedOwn(k: nat, e: Expr, s: seq<Token>)
    requires LEVEL_OR <= k <= LEVEL_PRIMARY && k == OwnLevel(e) && !e.Bin?
    requires Fits(k, e) && Stops(k, s)
    ensures Parse(k, Print(e) + s) == Resume(k, e, s)
    decreases e, LEVEL_PRIMARY - k, 0
  {
    match e
    case Get(o, f) =>
      ReadPrinted(k, o, [TDot(f)] + s);
      ReadGet(o, f, s);
    case Not(x) =>
      ReadPrinted(k, x, s);
      ReadNot(x, s);
    case Paren(x) =>
      ReadPrinted(LEVEL_OR, x, [TClose] + s);
      ReadParen(x, s);
    case Call(c, args) =>
      ReadPrinted(k, c, [TOpen] + PrintArgs(args) + s);
      ReadPrintedArgs(args, s);
      ReadCall(c, args, s);
    case _ =>
      ReadLeaf(e, s);
  }

  lemma {:induction false} ReadPrintedArgs(args: Args, s: seq<Token>)
    requires FitsArgs(args)
    ensures ParseArgs(PrintArgs(args) + s) == Some((args, s))
    decreases args
  {
    match args {
      case NoArgs =>
        assert (PrintArgs(args) + s)[1..] == s;
      case Arg(h, NoArgs) =>
        var s' := [TClose] + s;
        assert PrintArgs(args) + s == Print(h) + s';
        assert s'[1..] == s;
        FirstToken(LEVEL_OR, h);
        ReadPrinted(LEVEL_OR, h, s');
      case Arg(h, Arg(h2, t2)) =>
        var t := Arg(h2, t2);
        var s' := [TComma] + PrintArgs(t) + s;
        assert PrintArgs(args) + s == Print(h) + s';
        assert s'[1..] == PrintArgs(t) + s;
        FirstToken(LEVEL_OR, h);
        FirstToken(LEVEL_OR, h2);
        ReadPrinted(LEVEL_OR, h, s');
        ReadPrintedArgs(t, s);
    }
  }

  /** Printing and reading are inverse on every tree the grammar allows. */
  lemma {:induction false} PrintThenParse(e: Expr)
    requires Fits(LEVEL_OR, e)
    ensures ParseAll(Print(e)) == Some(e)
  {
    ReadPrinted(LEVEL_OR, e, []);
    assert Print(e) + [] == Print(e);
  }

  // ----- The reader yields only trees that fit -----

  lemma {:induction false} ParseFits(k: nat, ts: seq<Token>)
    requires LEVEL_OR <= k <= LEVEL_PRIMARY
    ensures var r := Parse(k, ts); r.Some? ==> Fits(k, r.value.0)
    decreases |ts|, LEVEL_PRIMARY - k + 1
  {
    if k == LEVEL_PRIMARY {
      ParsePrimaryFits(ts);
    } else if k == LEVEL_UNARY {
      if ts != [] && ts[0].TNot? {
        ParseFits(LEVEL_UNARY, ts[1..]);
      } else {
        ParseFits(LEVEL_MEMBER, ts);
        var r := Parse(LEVEL_MEMBER, ts);
        if r.Some? { FitsLower(k, LEVEL_MEMBER, r.value.0); }
      }
    } else {
      ParseFits(k + 1, ts);
      var r := Parse(k + 1, ts);
      if r.Some? {
        FitsLower(k, k + 1, r.value.0);
        TailFits(k, r.value.0, r.value.1);
      }
    }
  }

  lemma {:induction false} TailFits(k: nat, left: Expr, ts: seq<Token>)
    requires LEVEL_OR <= k <= LEVEL_MEMBER && k != LEVEL_UNARY
    requires Fits(k, left)
    ensures var r := Tail(k, left, ts); r.Some? ==> Fits(k, r.value.0)
    decreases |ts|, 0
  {
    if ts == [] || TokenLevel(ts[0]) != k {
    } else if ts[0].TDot? {
      if !Numeral(left) { TailFits(k, Get(left, ts[0].field), ts[1..]); }
    } else if ts[0].TOpen? {
      ParseArgsFits(ts[1..]);
      var r := ParseArgs(ts[1..]);
      if r.Some? { TailFits(k, Call(left, r.value.0), r.value.1); }
    } else {
      ParseFits(k + 1, ts[1..]);
      var r := Parse(k + 1, ts[1..]);
      if r.Some? { TailFits(k, Bin(ts[0].op, left, r.value.0), r.value.1); }
    }
  }

  lemma {:induction false} ParsePrimaryFits(ts: seq<Token>)
    ensures var r := ParsePrimary(ts); r.Some? ==> Fits(LEVEL_PRIMARY, r.value.0)
    decreases |ts|, 0
  {
    if ts != [] {
      match ts[0]
      case TOpen => ParseFits(LEVEL_OR, ts[1..]);
      case _ =>
    }
  }

  lemma {:induction false} ParseArgsFits(ts: seq<Token>)
    ensures var r := ParseArgs(ts); r.Some? ==> FitsArgs(r.value.0)
    decreases |ts|, LEVEL_PRIMARY + 2
  {
    if ts != [] && ts[0].TClose? {
    } else {
      ParseFits(LEVEL_OR, ts);
      var r := Parse(LEVEL_OR, ts);
      if r.Some? && r.value.1 != [] && r.value.1[0].TComma? {
        ParseArgsFits(r.value.1[1..]);
      }
    }
  }

  /** A printed tree reads back as itself exactly when it fits the grammar. */
  lemma {:induction false} ReadsBackIffFits(e: Expr)
    ensures ParseAll(Print(e)) == Some(e) <==> Fits(LEVEL_OR, e)
  {
    if Fits(LEVEL_OR, e) { PrintThenParse(e); }
    ParseFits(LEVEL_OR, Print(e));
  }
}
