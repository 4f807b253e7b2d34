/**
 Changelog lines, already classified, and the list items in a run of them. An item is a bullet
 line with everything up to the next bullet, less the blank lines at its end.
 */
module ChangelogText {

  /** `raw` and `ws` tell apart headings and blank lines that differ in spacing only. */
  datatype Line =
    | Release(heading: string, title: string)
    | Sub(title: string, raw: nat)
    | Bullet(text: string)
    | Blank(ws: nat)
    | Text(text: string)

  /** The empty line, and a subsection heading as the printer writes it. */
  const EMPTY := Blank(0)

  function Heading(title: string): Line {
    Sub(title, 0)
  }

  /** A line with its number in the file; lines the fixer makes itself carry number 0. */
  datatype Numbered = Numbered(line: Line, number: nat)

  function Texts(lines: seq<Numbered>): seq<Line> {
    seq(|lines|, i requires 0 <= i < |lines| => lines[i].line)
  }

  function Synthetic(lines: seq<Line>): seq<Numbered> {
    seq(|lines|, i requires 0 <= i < |lines| => Numbered(lines[i], 0))
  }

  lemma {:induction false} TextsOfSynthetic(lines: seq<Line>)
    ensures Texts(Synthetic(lines)) == lines
  {
  }

  // ----- Blank lines at the ends -----

  function TrimStart(lines: seq<Line>): seq<Line> {
    if lines != [] && lines[0].Blank? then TrimStart(lines[1..]) else lines
  }

  function TrimEnd(lines: seq<Line>): seq<Line> {
    if lines != [] && lines[|lines| - 1].Blank? then TrimEnd(lines[..|lines| - 1]) else lines
  }

  function TrimBlank(lines: seq<Line>): seq<Line> {
    TrimEnd(TrimStart(lines))
  }

  /** The scan from both ends. */
  method TrimBlankLines(lines: seq<Line>) returns (r: seq<Line>)
    ensures r == TrimBlank(lines)
  {
    var start := 0;
    assert lines[0..] == lines;
    while start < |lines| && lines[start].Blank?
      invariant start <= |lines| && TrimStart(lines[start..]) == TrimStart(lines)
    {
      assert lines[start..][1..] == lines[start + 1..];
      start := start + 1;
    }
    ghost var rest := lines[start..];
    var end := |lines|;
    assert lines[start..end] == rest;
    while end > start && lines[end - 1].Blank?
      invariant start <= end <= |lines| && TrimEnd(lines[start..end]) == TrimEnd(rest)
    {
      assert lines[start..end][..end - start - 1] == lines[start..end - 1];
      end := end - 1;
    }
    r := lines[start..end];
  }

  predicate AllBlank(lines: seq<Line>) {
    forall i :: 0 <= i < |lines| ==> lines[i].Blank?
  }

  /** Trimming is the one way to cut blank lines off both ends until none is left there. */
  lemma {:induction false} TrimStartIs(lines: seq<Line>) returns (n: nat)
    ensures n <= |lines| && TrimStart(lines) == lines[n..] && AllBlank(lines[..n])
    ensures n < |lines| ==> !lines[n].Blank?
    decreases |lines|
  {
    if lines != [] && lines[0].Blank? {
      var k := TrimStartIs(lines[1..]);
      n := k + 1;
      assert lines[..n] == [lines[0]] + lines[1..][..k];
    } else {
      n := 0;
    }
  }

  lemma {:induction false} TrimEndIs(lines: seq<Line>) returns (n: nat)
    ensures n <= |lines| && TrimEnd(lines) == lines[..n] && AllBlank(lines[n..])
    ensures if n > 0 then !lines[n - 1].Blank? else AllBlank(lines)
    decreases |lines|
  {
    if lines != [] && lines[|lines| - 1].Blank? {
      n := TrimEndIs(lines[..|lines| - 1]);
      assert lines[n..] == lines[..|lines| - 1][n..] + [lines[|lines| - 1]];
    } else {
      n := |lines|;
    }
  }

  predicate Trimmed(lines: seq<Line>) {
    lines == [] || (!lines[0].Blank? && !lines[|lines| - 1].Blank?)
  }

  lemma {:induction false} TrimBlankIs(lines: seq<Line>) returns (lo: nat, hi: nat)
    ensures lo <= hi <= |lines| && TrimBlank(lines) == lines[lo..hi] && Trimmed(TrimBlank(lines))
    ensures AllBlank(lines[..lo]) && AllBlank(lines[hi..])
    ensures lo == hi <==> AllBlank(lines)
  {
    lo := TrimStartIs(lines);
    var k := TrimEndIs(lines[lo..]);
    hi := lo + k;
    assert lines[lo..][..k] == lines[lo..hi] && lines[lo..][k..] == lines[hi..];
    if lo == hi {
      assert lines == lines[..lo] + lines[hi..];
    } else {
      assert !lines[lo].Blank?;
    }
  }

  lemma {:induction false} TrimStartBlank(pre: seq<Line>, lines: seq<Line>)
    requires AllBlank(pre)
    ensures TrimStart(pre + lines) == TrimStart(lines)
    decreases |pre|
  {
    if pre == [] {
      assert pre + lines == lines;
    } else {
      assert (pre + lines)[1..] == pre[1..] + lines;
      TrimStartBlank(pre[1..], lines);
    }
  }

  lemma {:induction false} TrimEndBlank(lines: seq<Line>, post: seq<Line>)
    requires AllBlank(post)
    ensures TrimEnd(lines + post) == TrimEnd(lines)
    decreases |post|
  {
    if post == [] {
      assert lines + post == lines;
    } else {
      assert (lines + post)[..|lines + post| - 1] == lines + post[..|post| - 1];
      TrimEndBlank(lines, post[..|post| - 1]);
    }
  }

  lemma {:induction false} TrimAllBlank(lines: seq<Line>)
    requires AllBlank(lines)
    ensures TrimStart(lines) == [] && TrimEnd(lines) == [] && TrimBlank(lines) == []
  {
    TrimStartBlank(lines, []);
    TrimEndBlank([], lines);
    assert lines + [] == lines && [] + lines == lines;
  }

  /** Blank lines around a run do not change what is left of it. */
  lemma {:induction false} TrimAround(pre: seq<Line>, lines: seq<Line>, post: seq<Line>)
    requires AllBlank(pre) && AllBlank(post)
    ensures TrimBlank(pre + lines + post) == TrimBlank(lines)
  {
    assert pre + lines + post == pre + (lines + post);
    TrimStartBlank(pre, lines + post);
    var n := TrimStartIs(lines);
    assert lines == lines[..n] + lines[n..];
    if n < |lines| {
      assert lines + post == lines[..n] + (lines[n..] + post);
      TrimStartBlank(lines[..n], lines[n..] + post);
      TrimEndBlank(lines[n..], post);
    } else {
      assert lines[..n] == lines;
      TrimAllBlank(lines);
      TrimAllBlank(lines + post);
    }
  }

  lemma {:induction false} TrimTrimmed(lines: seq<Line>)
    requires Trimmed(lines)
    ensures TrimBlank(lines) == lines
  {
  }

  lemma {:induction false} TrimTwice(lines: seq<Line>)
    ensures TrimBlank(TrimBlank(lines)) == TrimBlank(lines) && Trimmed(TrimBlank(lines))
  {
    var lo, hi := TrimBlankIs(lines);
    TrimTrimmed(TrimBlank(lines));
  }

  // ----- Items -----

  datatype Item = Item(startLine: nat, endLine: nat, lines: seq<Line>)

  /** The lines before the first bullet. */
  function Lead(lines: seq<Numbered>): (r: seq<Numbered>)
    ensures |r| <= |lines|
  {
    if lines == [] || lines[0].line.Bullet? then [] else [lines[0]] + Lead(lines[1..])
  }

  function BlockAt(lines: seq<Numbered>): (r: seq<Numbered>)
    requires lines != []
    ensures r != [] && |r| <= |lines|
  {
    [lines[0]] + Lead(lines[1..])
  }

  lemma {:induction false} LeadIs(lines: seq<Numbered>)
    ensures Lead(lines) == lines[..|Lead(lines)|]
    decreases |lines|
  {
    if lines != [] && !lines[0].line.Bullet? { LeadIs(lines[1..]); }
  }

  lemma {:induction false} BlockIs(lines: seq<Numbered>)
    requires lines != []
    ensures BlockAt(lines) == lines[..|BlockAt(lines)|]
  {
    LeadIs(lines[1..]);
  }

  function ItemOf(block: seq<Numbered>): Item
    requires block != []
  {
    Item(block[0].number, block[|block| - 1].number, TrimBlank(Texts(block)))
  }

  function Items(lines: seq<Numbered>): seq<Item> {
    if lines == [] then []
    else if lines[0].line.Bullet? then [ItemOf(BlockAt(lines))] + Items(lines[1..])
    else Items(lines[1..])
  }

  lemma {:induction false} ItemsSkipLead(lines: seq<Numbered>)
    ensures Items(lines[|Lead(lines)|..]) == Items(lines)
    decreases |lines|
  {
    if lines != [] && !lines[0].line.Bullet? {
      ItemsSkipLead(lines[1..]);
      assert lines[|Lead(lines)|..] == lines[1..][|Lead(lines[1..])|..];
    }
  }

  /** Where the lines that belong to no later item end. */
  method NextBullet(lines: seq<Numbered>, start: nat) returns (index: nat)
    requires start <= |lines|
    ensures index == start + |Lead(lines[start..])|
  {
    index := start;
    while index < |lines| && !lines[index].line.Bullet?
      invariant start <= index <= |lines|
      invariant start + |Lead(lines[start..])| == index + |Lead(lines[index..])|
    {
      assert lines[index..][1..] == lines[index + 1..];
      index := index + 1;
    }
  }

  lemma {:induction false} ItemsFrom(lines: seq<Numbered>, start: nat, index: nat)
    requires start < |lines| && lines[start].line.Bullet?
    requires index == start + 1 + |Lead(lines[start + 1..])|
    ensures index <= |lines| && Items(lines[start..]) == [ItemOf(lines[start..index])] + Items(lines[index..])
  {
    var tail := lines[start..];
    assert tail[1..] == lines[start + 1..];
    ItemsSkipLead(lines[start + 1..]);
    assert lines[start + 1..][|Lead(lines[start + 1..])|..] == lines[index..];
    BlockIs(tail);
    assert tail[..index - start] == lines[start..index];
  }

  lemma {:induction false} ItemsTurn(lines: seq<Numbered>, start: nat, index: nat, items: seq<Item>, item: Item, all: seq<Item>)
    requires start < |lines| && lines[start].line.Bullet?
    requires index == start + 1 + |Lead(lines[start + 1..])|
    requires index <= |lines| && item == ItemOf(lines[start..index])
    requires all == items + Items(lines[start..])
    ensures all == items + [item] + Items(lines[index..])
  {
    ItemsFrom(lines, start, index);
  }

  lemma {:induction false} ItemsPast(lines: seq<Numbered>, index: nat)
    requires index < |lines| && !lines[index].line.Bullet?
    ensures Items(lines[index..]) == Items(lines[index + 1..])
  {
    assert lines[index..][1..] == lines[index + 1..];
  }

  /** The scan by index, item after item. */
  method ParseItems(lines: seq<Numbered>) returns (items: seq<Item>)
    ensures items == Items(lines)
  {
    items := [];
    var index := 0;
    ghost var all := Items(lines);
    assert lines[0..] == lines;
    while index < |lines|
      invariant index <= |lines| && all == items + Items(lines[index..])
    {
      if !lines[index].line.Bullet? {
        ItemsPast(lines, index);
        index := index + 1;
      } else {
        var start := index;
        index := NextBullet(lines, start + 1);
        var kept := TrimBlankLines(Texts(lines[start..index]));
        var item := Item(lines[start].number, lines[index - 1].number, kept);
        ItemsTurn(lines, start, index, items, item, all);
        items := items + [item];
      }
    }
    assert lines[|lines|..] == [];
  }

  function LinesOf(items: seq<Item>): seq<seq<Line>> {
    seq(|items|, i requires 0 <= i < |items| => items[i].lines)
  }

  // ----- The texts of the items alone -----

  function LeadTexts(lines: seq<Line>): (r: seq<Line>)
    ensures |r| <= |lines|
  {
    if lines == [] || lines[0].Bullet? then [] else [lines[0]] + LeadTexts(lines[1..])
  }

  function ItemTexts(lines: seq<Line>): seq<seq<Line>> {
    if lines == [] then []
    else if lines[0].Bullet? then [TrimBlank([lines[0]] + LeadTexts(lines[1..]))] + ItemTexts(lines[1..])
    else ItemTexts(lines[1..])
  }

  lemma {:induction false} LeadErase(lines: seq<Numbered>)
    ensures Texts(Lead(lines)) == LeadTexts(Texts(lines))
    decreases |lines|
  {
    if lines != [] {
      assert Texts(lines)[1..] == Texts(lines[1..]);
      LeadErase(lines[1..]);
    }
  }

  lemma {:induction false} ItemsErase(lines: seq<Numbered>)
    ensures LinesOf(Items(lines)) == ItemTexts(Texts(lines))
    decreases |lines|
  {
    if lines != [] {
      assert Texts(lines)[1..] == Texts(lines[1..]);
      LeadErase(lines[1..]);
      ItemsErase(lines[1..]);
      if lines[0].line.Bullet? {
        assert Texts(BlockAt(lines)) == [lines[0].line] + Texts(Lead(lines[1..]));
      }
    }
  }

  /** A bullet and lines that are not bullets. */
  predicate Block(lines: seq<Line>) {
    lines != [] && lines[0].Bullet? && forall i :: 1 <= i < |lines| ==> !lines[i].Bullet?
  }

  predicate AtBullet(lines: seq<Line>) {
    lines == [] || lines[0].Bullet?
  }

  /** Every item is a trimmed block. */
  predicate AreItems(items: seq<seq<Line>>) {
    forall i :: 0 <= i < |items| ==> Block(items[i]) && Trimmed(items[i])
  }

  lemma {:induction false} LeadJoin(a: seq<Line>, b: seq<Line>)
    requires AtBullet(b)
    ensures LeadTexts(a + b) == LeadTexts(a)
    decreases |a|
  {
    if a == [] {
      assert a + b == b;
    } else {
      assert (a + b)[1..] == a[1..] + b;
      LeadJoin(a[1..], b);
    }
  }

  /** Items of two runs side by side, when the second does not continue an item of the first. */
  lemma {:induction false} ItemsJoin(a: seq<Line>, b: seq<Line>)
    requires AtBullet(b)
    ensures ItemTexts(a + b) == ItemTexts(a) + ItemTexts(b)
    decreases |a|
  {
    if a == [] {
      assert a + b == b;
    } else {
      assert (a + b)[1..] == a[1..] + b;
      LeadJoin(a[1..], b);
      ItemsJoin(a[1..], b);
    }
  }

  lemma {:induction false} LeadThenBlank(lines: seq<Line>, blanks: seq<Line>) returns (post: seq<Line>)
    requires AllBlank(blanks)
    ensures AllBlank(post) && LeadTexts(lines + blanks) == LeadTexts(lines) + post
    decreases |lines| + |blanks|
  {
    var all := lines + blanks;
    if lines == [] {
      assert all == blanks;
      LeadOfNoBullet(blanks);
      post := blanks;
    } else if lines[0].Bullet? {
      post := [];
    } else {
      assert all[1..] == lines[1..] + blanks;
      post := LeadThenBlank(lines[1..], blanks);
    }
  }

  lemma {:induction false} LeadOfNoBullet(lines: seq<Line>)
    requires forall i :: 0 <= i < |lines| ==> !lines[i].Bullet?
    ensures LeadTexts(lines) == lines && ItemTexts(lines) == []
    decreases |lines|
  {
    if lines != [] { LeadOfNoBullet(lines[1..]); }
  }

  lemma {:induction false} ItemsThenBlank(lines: seq<Line>, blanks: seq<Line>)
    requires AllBlank(blanks)
    ensures ItemTexts(lines + blanks) == ItemTexts(lines)
    decreases |lines|
  {
    if lines == [] {
      assert lines + blanks == blanks;
      LeadOfNoBullet(blanks);
    } else {
      assert (lines + blanks)[1..] == lines[1..] + blanks;
      ItemsThenBlank(lines[1..], blanks);
      if lines[0].Bullet? {
        var post := LeadThenBlank(lines[1..], blanks);
        var block := [lines[0]] + LeadTexts(lines[1..]);
        TrimAround([], block, post);
        assert [] + block + post == [lines[0]] + (LeadTexts(lines[1..]) + post);
      }
    }
  }

  lemma {:induction false} BlankThenItems(blanks: seq<Line>, lines: seq<Line>)
    requires AllBlank(blanks)
    ensures ItemTexts(blanks + lines) == ItemTexts(lines)
    decreases |blanks|
  {
    if blanks == [] {
      assert blanks + lines == lines;
    } else {
      assert (blanks + lines)[1..] == blanks[1..] + lines;
      BlankThenItems(blanks[1..], lines);
    }
  }

  lemma {:induction false} TrimKeepsItems(lines: seq<Line>)
    ensures ItemTexts(TrimBlank(lines)) == ItemTexts(lines)
  {
    var lo, hi := TrimBlankIs(lines);
    assert lines == lines[..lo] + (lines[lo..hi] + lines[hi..]);
    BlankThenItems(lines[..lo], lines[lo..hi] + lines[hi..]);
    ItemsThenBlank(lines[lo..hi], lines[hi..]);
  }

  lemma {:induction false} LeadHasNoBullet(lines: seq<Line>)
    ensures forall i :: 0 <= i < |LeadTexts(lines)| ==> !LeadTexts(lines)[i].Bullet?
    ensures AtBullet(lines[|LeadTexts(lines)|..]) && LeadTexts(lines) == lines[..|LeadTexts(lines)|]
    decreases |lines|
  {
    if lines != [] && !lines[0].Bullet? {
      LeadHasNoBullet(lines[1..]);
      assert lines[|LeadTexts(lines)|..] == lines[1..][|LeadTexts(lines[1..])|..];
    }
  }

  lemma {:induction false} TrimmedBlock(block: seq<Line>)
    requires Block(block)
    ensures Block(TrimBlank(block)) && Trimmed(TrimBlank(block))
  {
    var n := TrimEndIs(block);
  }

  lemma {:induction false} ItemsAreItems(lines: seq<Line>)
    ensures AreItems(ItemTexts(lines))
    decreases |lines|
  {
    if lines != [] {
      ItemsAreItems(lines[1..]);
      if lines[0].Bullet? {
        LeadHasNoBullet(lines[1..]);
        TrimmedBlock([lines[0]] + LeadTexts(lines[1..]));
      }
    }
  }

  /** A trimmed block in front of such blocks is the first item. */
  lemma {:induction false} BlockFirst(block: seq<Line>, rest: seq<Line>)
    requires Block(block) && Trimmed(block) && AtBullet(rest)
    ensures ItemTexts(block + rest) == [block] + ItemTexts(rest)
  {
    ItemsJoin(block, rest);
    LeadOfNoBullet(block[1..]);
    assert [block[0]] + block[1..] == block;
    TrimTrimmed(block);
  }

  // ----- Appending and compacting -----

  /** What `appendSubsectionLines` leaves in a subsection that held `target`. */
  function Append(target: seq<Line>, source: seq<Line>): seq<Line> {
    var s, t := TrimBlank(source), TrimBlank(target);
    if s == [] then target
    else if t == [] then s
    else t + (if t[|t| - 1].Bullet? && s[0].Bullet? then [] else [EMPTY]) + s
  }

  /** The first line that is not blank is a bullet, if there is one. */
  predicate Led(lines: seq<Line>) {
    AtBullet(TrimBlank(lines))
  }

  lemma {:induction false} JoinedRuns(t: seq<Line>, sep: seq<Line>, s: seq<Line>)
    requires AllBlank(sep) && AtBullet(s) && s != [] && t != [] && Trimmed(t) && Trimmed(s)
    ensures ItemTexts(t + sep + s) == ItemTexts(t) + ItemTexts(s)
    ensures AtBullet(t) ==> Led(t + sep + s)
  {
    ItemsJoin(t + sep, s);
    ItemsThenBlank(t, sep);
    var all := t + sep + s;
    assert all[0] == t[0] && all[|all| - 1] == s[|s| - 1];
    TrimTrimmed(all);
  }

  lemma {:induction false} AppendJoinsItems(target: seq<Line>, source: seq<Line>)
    requires Led(source)
    ensures ItemTexts(Append(target, source)) == ItemTexts(target) + ItemTexts(source)
    ensures Led(target) ==> Led(Append(target, source))
  {
    var s, t := TrimBlank(source), TrimBlank(target);
    TrimKeepsItems(source);
    TrimKeepsItems(target);
    TrimTwice(source);
    TrimTwice(target);
    if s != [] && t != [] {
      JoinedRuns(t, if t[|t| - 1].Bullet? && s[0].Bullet? then [] else [EMPTY], s);
    }
  }

  function Flat(items: seq<seq<Line>>): seq<Line> {
    if items == [] then [] else items[0] + Flat(items[1..])
  }

  function NonBlank(lines: seq<Line>): seq<Line> {
    if lines == [] then []
    else if lines[0].Blank? then NonBlank(lines[1..])
    else [lines[0]] + NonBlank(lines[1..])
  }

  /** Drops the blank lines between items, unless a line would be lost. */
  function Compact(lines: seq<Line>): seq<Line> {
    var t := TrimBlank(lines);
    var flat := Flat(ItemTexts(t));
    if t == [] || ItemTexts(t) == [] || NonBlank(t) != NonBlank(flat) then t else flat
  }

  lemma {:induction false} NonBlankJoin(a: seq<Line>, b: seq<Line>)
    ensures NonBlank(a + b) == NonBlank(a) + NonBlank(b)
    decreases |a|
  {
    if a == [] {
      assert a + b == b;
    } else {
      assert (a + b)[1..] == a[1..] + b;
      NonBlankJoin(a[1..], b);
    }
  }

  lemma {:induction false} NonBlankAll(blanks: seq<Line>)
    requires AllBlank(blanks)
    ensures NonBlank(blanks) == []
    decreases |blanks|
  {
    if blanks != [] {
      NonBlankAll(blanks[1..]);
    }
  }

  lemma {:induction false} NonBlankTrim(lines: seq<Line>)
    ensures NonBlank(TrimBlank(lines)) == NonBlank(lines)
  {
    var lo, hi := TrimBlankIs(lines);
    assert lines == lines[..lo] + (lines[lo..hi] + lines[hi..]);
    NonBlankJoin(lines[..lo], lines[lo..hi] + lines[hi..]);
    NonBlankJoin(lines[lo..hi], lines[hi..]);
    NonBlankAll(lines[..lo]);
    NonBlankAll(lines[hi..]);
  }

  /** Only what stands before the first bullet is missing from the items. */
  lemma {:induction false} FlatKeepsText(lines: seq<Line>)
    ensures NonBlank(LeadTexts(lines)) + NonBlank(Flat(ItemTexts(lines))) == NonBlank(lines)
    decreases |lines|
  {
    if lines != [] {
      FlatKeepsText(lines[1..]);
      if lines[0].Bullet? {
        var block := [lines[0]] + LeadTexts(lines[1..]);
        assert ([TrimBlank(block)] + ItemTexts(lines[1..]))[1..] == ItemTexts(lines[1..]);
        NonBlankJoin(TrimBlank(block), Flat(ItemTexts(lines[1..])));
        NonBlankTrim(block);
        assert block[1..] == LeadTexts(lines[1..]);
      } else {
        assert ([lines[0]] + LeadTexts(lines[1..]))[1..] == LeadTexts(lines[1..]);
      }
    }
  }

  /** Compaction happens exactly where no text stands before the first bullet. */
  lemma {:induction false} CompactIs(lines: seq<Line>)
    ensures Compact(lines) == if Led(lines) then Flat(ItemTexts(lines)) else TrimBlank(lines)
  {
    var t := TrimBlank(lines);
    TrimTwice(lines);
    TrimKeepsItems(lines);
    if t != [] {
      if t[0].Bullet? {
        FlatKeepsText(t);
      } else if ItemTexts(t) != [] {
        ItemsAreItems(t);
        var first := ItemTexts(t)[0];
        assert Block(first);
        NonBlankJoin(first, Flat(ItemTexts(t)[1..]));
        assert NonBlank(first)[0].Bullet?;
        assert NonBlank(t)[0] == t[0];
      }
    }
  }

  lemma {:induction false} FlatHasItems(items: seq<seq<Line>>)
    requires AreItems(items)
    ensures ItemTexts(Flat(items)) == items
    ensures AtBullet(Flat(items)) && Trimmed(Flat(items)) && (Flat(items) == [] <==> items == [])
    decreases |items|
  {
    if items != [] {
      FlatHasItems(items[1..]);
      BlockFirst(items[0], Flat(items[1..]));
    }
  }

  // ----- Taking items out -----

  /** Which items of a run are meant. */
  datatype Choice = Keyed(keys: set<seq<Line>>) | Starting(starts: set<nat>) | Not(other: Choice) {
    predicate Takes(item: Item) {
      match this
      case Keyed(keys) => item.lines in keys
      case Starting(starts) => item.startLine in starts
      case Not(other) => !other.Takes(item)
    }
  }

  /** The lines that are left when the selected items go. */
  function Kept(lines: seq<Numbered>, out: Choice): seq<Numbered>
    decreases |lines|
  {
    if lines == [] then []
    else if !lines[0].line.Bullet? then [lines[0]] + Kept(lines[1..], out)
    else
      var block := BlockAt(lines);
      if out.Takes(ItemOf(block)) then Kept(lines[|block|..], out) else block + Kept(lines[|block|..], out)
  }

  function Pick(items: seq<Item>, keep: Choice): seq<Item> {
    if items == [] then []
    else if keep.Takes(items[0]) then [items[0]] + Pick(items[1..], keep)
    else Pick(items[1..], keep)
  }

  function Range(lo: nat, hi: nat): (r: set<nat>)
    ensures forall n :: n in r <==> lo <= n <= hi
    decreases hi + 1 - lo
  {
    if lo > hi then {} else {lo} + Range(lo + 1, hi)
  }

  function LineRangeSet(items: seq<Item>): set<nat> {
    if items == [] then {} else Range(items[0].startLine, items[0].endLine) + LineRangeSet(items[1..])
  }

  function Without(lines: seq<Numbered>, numbers: set<nat>): seq<Numbered> {
    if lines == [] then []
    else if lines[0].number in numbers then Without(lines[1..], numbers)
    else [lines[0]] + Without(lines[1..], numbers)
  }

  /** Line numbers as the parser gives them. */
  predicate Rising(lines: seq<Numbered>) {
    forall i, j :: 0 <= i < j < |lines| ==> lines[i].number < lines[j].number
  }

  lemma {:induction false} WithoutSame(lines: seq<Numbered>, a: set<nat>, b: set<nat>)
    requires forall i :: 0 <= i < |lines| ==> (lines[i].number in a <==> lines[i].number in b)
    ensures Without(lines, a) == Without(lines, b)
    decreases |lines|
  {
    if lines != [] { WithoutSame(lines[1..], a, b); }
  }

  lemma {:induction false} WithoutJoin(x: seq<Numbered>, y: seq<Numbered>, numbers: set<nat>)
    ensures Without(x + y, numbers) == Without(x, numbers) + Without(y, numbers)
    decreases |x|
  {
    if x == [] {
      assert x + y == y;
    } else {
      assert (x + y)[1..] == x[1..] + y;
      WithoutJoin(x[1..], y, numbers);
    }
  }

  lemma {:induction false} WithoutAll(lines: seq<Numbered>, numbers: set<nat>)
    requires forall i :: 0 <= i < |lines| ==> lines[i].number in numbers
    ensures Without(lines, numbers) == []
    decreases |lines|
  {
    if lines != [] { WithoutAll(lines[1..], numbers); }
  }

  lemma {:induction false} WithoutNone(lines: seq<Numbered>, numbers: set<nat>)
    requires forall i :: 0 <= i < |lines| ==> lines[i].number !in numbers
    ensures Without(lines, numbers) == lines
    decreases |lines|
  {
    if lines != [] { WithoutNone(lines[1..], numbers); }
  }

  predicate Within(numbers: set<nat>, lines: seq<Numbered>) {
    forall n :: n in numbers ==> lines != [] && lines[0].number <= n <= lines[|lines| - 1].number
  }

  lemma {:induction false} PickFirst(item: Item, items: seq<Item>, keep: Choice)
    ensures Pick([item] + items, keep) == (if keep.Takes(item) then [item] else []) + Pick(items, keep)
  {
    assert ([item] + items)[1..] == items;
  }

  function RangeOf(item: Item, taken: bool): set<nat> {
    if taken then Range(item.startLine, item.endLine) else {}
  }

  lemma {:induction false} RangesFirst(item: Item, items: seq<Item>, out: Choice)
    ensures LineRangeSet(Pick([item] + items, out)) == RangeOf(item, out.Takes(item)) + LineRangeSet(Pick(items, out))
  {
    PickFirst(item, items, out);
    if out.Takes(item) {
      assert ([item] + Pick(items, out))[1..] == Pick(items, out);
    }
  }

  lemma {:induction false} WithinCons(lines: seq<Numbered>, numbers: set<nat>)
    requires lines != [] && Rising(lines) && Within(numbers, lines[1..])
    ensures Within(numbers, lines)
  {
    if |lines| > 1 { assert lines[1..][0] == lines[1]; }
  }

  lemma {:induction false} BlockWithin(lines: seq<Numbered>, taken: bool)
    requires lines != [] && Rising(lines)
    ensures Within(RangeOf(ItemOf(BlockAt(lines)), taken), lines)
  {
    var block := BlockAt(lines);
    BlockIs(lines);
  }

  lemma {:induction false} RangesWithin(lines: seq<Numbered>, out: Choice)
    requires Rising(lines)
    ensures Within(LineRangeSet(Pick(Items(lines), out)), lines)
    decreases |lines|
  {
    if lines != [] {
      RangesWithin(lines[1..], out);
      var later := LineRangeSet(Pick(Items(lines[1..]), out));
      WithinCons(lines, later);
      if lines[0].line.Bullet? {
        var item := ItemOf(BlockAt(lines));
        BlockWithin(lines, out.Takes(item));
        RangesFirst(item, Items(lines[1..]), out);
      }
    }
  }

  lemma {:induction false} ItemsByBlock(lines: seq<Numbered>)
    requires lines != [] && lines[0].line.Bullet?
    ensures Items(lines) == [ItemOf(BlockAt(lines))] + Items(lines[|BlockAt(lines)|..])
    ensures AtBulletN(lines[|BlockAt(lines)|..])
  {
    ItemsSkipLead(lines[1..]);
    LeadEnds(lines[1..]);
    assert lines[|BlockAt(lines)|..] == lines[1..][|Lead(lines[1..])|..];
  }

  predicate AtBulletN(lines: seq<Numbered>) {
    lines == [] || lines[0].line.Bullet?
  }

  lemma {:induction false} LeadEnds(lines: seq<Numbered>)
    ensures AtBulletN(lines[|Lead(lines)|..])
    ensures forall i :: 0 <= i < |Lead(lines)| ==> !Lead(lines)[i].line.Bullet?
    decreases |lines|
  {
    if lines != [] && !lines[0].line.Bullet? {
      LeadEnds(lines[1..]);
      assert lines[|Lead(lines)|..] == lines[1..][|Lead(lines[1..])|..];
    }
  }

  lemma {:induction false} BlockBounds(block: seq<Numbered>, rest: seq<Numbered>)
    requires block != [] && Rising(block + rest)
    ensures forall i :: 0 <= i < |block| ==> ItemOf(block).startLine <= block[i].number <= ItemOf(block).endLine
    ensures forall j :: 0 <= j < |rest| ==> rest[j].number > ItemOf(block).endLine
    ensures Rising(rest)
  {
    var all := block + rest;
    assert forall i :: 0 <= i < |block| ==> block[i] == all[i];
    assert forall j :: 0 <= j < |rest| ==> rest[j] == all[|block| + j];
  }

  lemma {:induction false} WithoutBlock(block: seq<Numbered>, rest: seq<Numbered>, taken: bool, later: set<nat>)
    requires block != [] && Rising(block + rest) && Within(later, rest)
    ensures Without(block + rest, RangeOf(ItemOf(block), taken) + later) ==
            (if taken then [] else block) + Without(rest, later)
  {
    var numbers := RangeOf(ItemOf(block), taken) + later;
    BlockBounds(block, rest);
    WithoutJoin(block, rest, numbers);
    WithoutSame(rest, numbers, later);
    if taken { WithoutAll(block, numbers); } else { WithoutNone(block, numbers); }
  }

  lemma {:induction false} WithoutFirst(lines: seq<Numbered>, later: set<nat>)
    requires lines != [] && Rising(lines) && Within(later, lines[1..])
    ensures Without(lines, later) == [lines[0]] + Without(lines[1..], later)
  {
    if |lines| > 1 { assert lines[1..][0] == lines[1]; }
  }

  lemma {:induction false} KeptBlock(lines: seq<Numbered>, out: Choice)
    requires lines != [] && lines[0].line.Bullet?
    ensures var block := BlockAt(lines);
            Kept(lines, out) == (if out.Takes(ItemOf(block)) then [] else block) + Kept(lines[|block|..], out)
  {
  }

  lemma {:induction false} WithoutTurn(lines: seq<Numbered>, block: seq<Numbered>, rest: seq<Numbered>, out: Choice)
    requires block != [] && lines == block + rest && Rising(lines)
    requires Items(lines) == [ItemOf(block)] + Items(rest)
    requires Within(LineRangeSet(Pick(Items(rest), out)), rest)
    ensures Without(lines, LineRangeSet(Pick(Items(lines), out))) ==
            (if out.Takes(ItemOf(block)) then [] else block) + Without(rest, LineRangeSet(Pick(Items(rest), out)))
  {
    WithoutBlock(block, rest, out.Takes(ItemOf(block)), LineRangeSet(Pick(Items(rest), out)));
    RangesFirst(ItemOf(block), Items(rest), out);
  }

  /** Filtering by line number takes out exactly the selected items. */
  lemma {:induction false} WithoutIsKept(lines: seq<Numbered>, out: Choice)
    requires Rising(lines)
    ensures Without(lines, LineRangeSet(Pick(Items(lines), out))) == Kept(lines, out)
    decreases |lines|
  {
    if lines == [] {
    } else if !lines[0].line.Bullet? {
      RangesWithin(lines[1..], out);
      WithoutIsKept(lines[1..], out);
      WithoutFirst(lines, LineRangeSet(Pick(Items(lines[1..]), out)));
    } else {
      var block := BlockAt(lines);
      var rest := lines[|block|..];
      ItemsByBlock(lines);
      BlockIs(lines);
      BlockBounds(block, rest);
      RangesWithin(rest, out);
      WithoutIsKept(rest, out);
      WithoutTurn(lines, block, rest, out);
      KeptBlock(lines, out);
    }
  }

  lemma {:induction false} LeadThen(pre: seq<Numbered>, rest: seq<Numbered>)
    requires AtBulletN(rest) && forall i :: 0 <= i < |pre| ==> !pre[i].line.Bullet?
    ensures Lead(pre + rest) == pre && Items(pre + rest) == Items(rest)
    decreases |pre|
  {
    if pre == [] {
      assert pre + rest == rest;
    } else {
      assert (pre + rest)[1..] == pre[1..] + rest;
      LeadThen(pre[1..], rest);
    }
  }

  lemma {:induction false} KeptAtBullet(lines: seq<Numbered>, out: Choice)
    requires AtBulletN(lines)
    ensures AtBulletN(Kept(lines, out))
    decreases |lines|
  {
    if lines != [] {
      ItemsByBlock(lines);
      KeptAtBullet(lines[|BlockAt(lines)|..], out);
    }
  }

  lemma {:induction false} BlockThen(block: seq<Numbered>, rest: seq<Numbered>)
    requires block != [] && block[0].line.Bullet? && AtBulletN(rest)
    requires forall i :: 0 <= i < |block[1..]| ==> !block[1..][i].line.Bullet?
    ensures Items(block + rest) == [ItemOf(block)] + Items(rest)
  {
    var all := block + rest;
    assert all[1..] == block[1..] + rest;
    LeadThen(block[1..], rest);
    assert BlockAt(all) == block;
  }

  /** What is kept starts as before, and its items are those not selected. */
  lemma {:induction false} ItemsOfKept(lines: seq<Numbered>, out: Choice)
    ensures Items(Kept(lines, out)) == Pick(Items(lines), Not(out))
    ensures Lead(Kept(lines, out)) == Lead(lines)
    decreases |lines|
  {
    if lines == [] {
    } else if !lines[0].line.Bullet? {
      ItemsOfKept(lines[1..], out);
      var kept := Kept(lines, out);
      assert kept[1..] == Kept(lines[1..], out);
    } else {
      var block := BlockAt(lines);
      var rest := lines[|block|..];
      ItemsByBlock(lines);
      ItemsOfKept(rest, out);
      KeptAtBullet(rest, out);
      KeptAtBullet(lines, out);
      LeadEnds(lines[1..]);
      assert block[1..] == Lead(lines[1..]);
      PickFirst(ItemOf(block), Items(rest), Not(out));
      KeptBlock(lines, out);
      if !out.Takes(ItemOf(block)) {
        BlockThen(block, Kept(rest, out));
      }
    }
  }

  /** A run is led by a bullet when nothing but blank lines comes before its first bullet. */
  lemma {:induction false} LedIs(lines: seq<Line>)
    ensures Led(lines) <==> AllBlank(LeadTexts(lines))
  {
    var lo, hi := TrimBlankIs(lines);
    var lead := LeadTexts(lines);
    LeadHasNoBullet(lines);
    var rest := lines[|lead|..];
    assert lines == lead + rest;
    if AllBlank(lead) {
      TrimStartBlank(lead, rest);
      var n := TrimEndIs(TrimStart(rest));
    } else if lo < hi {
      assert lines[lo..hi][0] == lines[lo];
    }
  }
}
