// What every step of the formatter keeps: the leaves, their order, and the balance of
// math mode; and the one case in which a step loses leaves.
module Conservation {
  import opened Wrappers
  import opened Scraps
  import opened Productions
  import opened Meaning
  import opened Translate

  // ---------- composing a text ----------

  ghost predicate BuiltToks(toks: seq<Token>) {
    forall i :: 0 <= i < |toks| ==> toks[i].Ch? || toks[i].Text?
  }

  // x read from init ends in fin, with Maybe meaning "in whichever mode it was".
  ghost predicate ReadsAs(x: seq<Atom>, modes: map<nat, Math>, init: Math, fin: Math) {
    && (init == Maybe <==> fin == Maybe)
    && (if init == Maybe then Read(x, modes, Yes) == Some(Yes) && Read(x, modes, No) == Some(No)
        else Read(x, modes, init) == Some(fin))
  }

  ghost predicate PenOk(a: Arena, base: nat, modes: map<nat, Math>, p: Pen) {
    && RefsBelow(p.out, a.Count()) && BuiltToks(p.out)
    && ReadsAs(FlatToks(a, base, p.out, a.Count()), modes, p.init, p.cur)
  }

  ghost predicate ScrapReads(a: Arena, base: nat, modes: map<nat, Math>, s: Scrap) {
    s.trans < a.Count() && ReadsAs(Flat(a, base, s.trans), modes, s.init, s.fin)
  }

  lemma AddToken(a: Arena, base: nat, out: seq<Token>, tok: Token)
    requires RefsBelow(out, a.Count()) && RefBelow(tok, a.Count())
    ensures RefsBelow(out + [tok], a.Count())
    ensures FlatToks(a, base, out + [tok], a.Count())
         == FlatToks(a, base, out, a.Count()) + Expand(a, base, tok, a.Count())
  {
    FlatToksAppend(a, base, out, [tok], a.Count());
    assert FlatToks(a, base, [tok], a.Count()) == Expand(a, base, tok, a.Count()) + [];
  }

  // {}$ and ${} keep no leaf and toggle the mode once.
  lemma ToggleMarks(a: Arena, base: nat, modes: map<nat, Math>, m: Math, bound: nat)
    requires m != Maybe
    ensures var x := FlatToks(a, base, Toggle(m), bound);
            Kept(x) == [] && Read(x, modes, if m == Yes then No else Yes) == Some(m)
  {
    var t := Toggle(m);
    var x, y, z := t[0], t[1], t[2];
    var n := if m == Yes then No else Yes;
    assert t == [x] + ([y] + [z]);
    FlatToksAppend(a, base, [x], [y] + [z], bound);
    FlatToksAppend(a, base, [y], [z], bound);
    OneMark(a, base, x, modes, n, bound);
    OneMark(a, base, y, modes, Yes, bound);
    OneMark(a, base, z, modes, Yes, bound);
    KeptAppend([Mark(y)], [Mark(z)]);
    KeptAppend([Mark(x)], [Mark(y)] + [Mark(z)]);
    ReadAppend([Mark(y)], [Mark(z)], modes, if x == DOLLAR then m else n);
    ReadAppend([Mark(x)], [Mark(y)] + [Mark(z)], modes, n);
  }

  lemma OneMark(a: Arena, base: nat, t: Token, modes: map<nat, Math>, m: Math, bound: nat)
    requires t.Ch? && t != LESS && t != GREATER && m != Maybe && (Belongs(t) == Maybe || Belongs(t) == m)
    ensures FlatToks(a, base, [t], bound) == [Mark(t)]
    ensures Kept([Mark(t)]) == []
    ensures Read([Mark(t)], modes, m) == Some(if t == DOLLAR then (if m == Yes then No else Yes) else m)
  {
    assert FlatToks(a, base, [t], bound) == [Mark(t)] + FlatToks(a, base, [t][1..], bound);
  }

  function PenKept(a: Arena, base: nat, p: Pen): seq<Atom>
  {
    Kept(FlatToks(a, base, p.out, a.Count()))
  }

  function ScrapKept(a: Arena, base: nat, s: Scrap): seq<Atom> { Kept(Flat(a, base, s.trans)) }

  function ScrapsKept(a: Arena, base: nat, ss: seq<Scrap>): seq<Atom>
  {
    Kept(FlatScraps(a, base, ss))
  }

  lemma ScrapsKeptAppend(a: Arena, base: nat, x: seq<Scrap>, y: seq<Scrap>)
    ensures ScrapsKept(a, base, x + y) == ScrapsKept(a, base, x) + ScrapsKept(a, base, y)
  {
    FlatScrapsAppend(a, base, x, y);
    KeptAppend(FlatScraps(a, base, x), FlatScraps(a, base, y));
  }

  lemma ScrapsKeptOne(a: Arena, base: nat, s: Scrap)
    ensures ScrapsKept(a, base, [s]) == ScrapKept(a, base, s)
  {
    assert FlatScraps(a, base, [s][1..]) == [];
    assert Flat(a, base, s.trans) + [] == Flat(a, base, s.trans);
  }

  lemma ScrapsKeptCons(a: Arena, base: nat, w: seq<Scrap>, i: nat, j: nat)
    requires i < j <= |w|
    ensures ScrapsKept(a, base, w[i..j])
         == ScrapKept(a, base, w[i]) + ScrapsKept(a, base, w[i + 1..j])
  {
    assert [w[i]] + w[i + 1..j] == w[i..j];
    ScrapsKeptOne(a, base, w[i]);
    ScrapsKeptAppend(a, base, [w[i]], w[i + 1..j]);
  }

  // Entering a mode inserts at most a $, keeps no leaf and leaves the pen in that mode.
  lemma EnterOk(a: Arena, base: nat, modes: map<nat, Math>, p: Pen, m: Math)
    requires PenOk(a, base, modes, p) && m != Maybe
    ensures var q := Enter(p, m);
            PenOk(a, base, modes, q) && q.cur == m
            && PenKept(a, base, q) == PenKept(a, base, p)
  {
    if p.cur != Maybe && p.cur != m {
      var x := FlatToks(a, base, p.out, a.Count());
      var y := FlatToks(a, base, Toggle(m), a.Count());
      FlatToksAppend(a, base, p.out, Toggle(m), a.Count());
      ToggleMarks(a, base, modes, m, a.Count());
      KeptAppend(x, y);
      ReadAppend(x, y, modes, p.init);
    }
  }

  // A bare plain token, where it may stand, changes neither the leaves nor the mode.
  lemma BareOk(a: Arena, base: nat, modes: map<nat, Math>, p: Pen, t: Token)
    requires PenOk(a, base, modes, p) && Plain(t) && (Belongs(t) == Maybe || Belongs(t) == p.cur)
    ensures var q := Bare(p, t);
            PenOk(a, base, modes, q)
            && PenKept(a, base, q) == PenKept(a, base, p)
  {
    AddToken(a, base, p.out, t);
    var x := FlatToks(a, base, p.out, a.Count());
    KeptAppend(x, [Mark(t)]);
    ReadAppend(x, [Mark(t)], modes, Yes);
    ReadAppend(x, [Mark(t)], modes, No);
    assert Belongs(t) != No ==> Read([Mark(t)], modes, Yes) == Some(Yes);
    assert Belongs(t) != Yes ==> Read([Mark(t)], modes, No) == Some(No);
    assert p.init == Maybe || p.init == Yes || p.init == No;
    assert p.cur == Maybe || p.cur == Yes || p.cur == No;
  }

  lemma BigTokOk(a: Arena, base: nat, modes: map<nat, Math>, p: Pen, t: Token)
    requires PenOk(a, base, modes, p) && Plain(t)
    ensures var q := BigTok(p, t);
            PenOk(a, base, modes, q) && PenKept(a, base, q) == PenKept(a, base, p)
  {
    EnterOk(a, base, modes, p, ModeOf(t));
    BareOk(a, base, modes, Enter(p, ModeOf(t)), t);
  }

  // big_app: blanks, line breaks, indents and their like call for text mode, every other token
  // for math; the change is spelled out where there is one.
  lemma BigTokMeans(p: Pen, t: Token)
    requires t.Ch?
    ensures var q := BigTok(p, t);
            var text := t == SPACE || t == BIG_CANCEL || t == CANCEL || t == INDENT || t == OUTDENT || t == OPT
                        || t == BACKUP || t == BREAK_SPACE || t == FORCE || t == BIG_FORCE;
            && q.cur == (if text then No else Yes)
            && q.init == (if p.cur == Maybe then q.cur else p.init)
            && q.out == p.out + (if p.cur == Yes && text then [OPEN, CLOSE, DOLLAR]
                                 else if p.cur == No && !text then [DOLLAR, OPEN, CLOSE] else []) + [t]
  {
  }

  // A scrap is entered in its own mode and contributes exactly its leaves.
  lemma BigScrapOk(a: Arena, base: nat, modes: map<nat, Math>, p: Pen, s: Scrap)
    requires PenOk(a, base, modes, p) && ScrapReads(a, base, modes, s)
    ensures var q := BigScrap(p, s);
            PenOk(a, base, modes, q)
            && PenKept(a, base, q)
            == PenKept(a, base, p) + ScrapKept(a, base, s)
  {
    var y := Flat(a, base, s.trans);
    var e := if s.init == Maybe then p else Enter(p, s.init);
    if s.init != Maybe { EnterOk(a, base, modes, p, s.init); }
    var x := FlatToks(a, base, e.out, a.Count());
    AddToken(a, base, e.out, Text(s.trans));
    KeptAppend(x, y);
    ReadAppend(x, y, modes, Yes);
    ReadAppend(x, y, modes, No);
    assert p.init == Maybe || p.init == Yes || p.init == No;
    assert e.cur == Maybe || e.cur == Yes || e.cur == No;
  }

  ghost predicate AllRead(a: Arena, base: nat, modes: map<nat, Math>, w: seq<Scrap>) {
    forall i :: 0 <= i < |w| ==> ScrapReads(a, base, modes, w[i])
  }

  // A layout that takes scraps i..j in order adds exactly their leaves, in order, and
  // leaves the pen balanced.
  lemma {:induction false} ComposeOk(a: Arena, base: nat, modes: map<nat, Math>, l: Layout, p: Pen, w: seq<Scrap>,
                                     i: nat, j: nat)
    requires PenOk(a, base, modes, p) && AllRead(a, base, modes, w)
    requires TakesInOrder(l, i, j) && i <= j <= |w|
    ensures var q := Compose(l, p, w);
            PenOk(a, base, modes, q)
            && PenKept(a, base, q) == PenKept(a, base, p) + ScrapsKept(a, base, w[i..j])
    decreases l
  {
    match l
    case End => assert w[i..j] == [];
    case Sub(_, r) =>
      BigScrapOk(a, base, modes, p, w[i]);
      ComposeOk(a, base, modes, r, BigScrap(p, w[i]), w, i + 1, j);
      ScrapsKeptCons(a, base, w, i, j);
      Associative(PenKept(a, base, p), ScrapKept(a, base, w[i]), ScrapsKept(a, base, w[i + 1..j]));
    case Big(t, r) =>
      BigTokOk(a, base, modes, p, t);
      ComposeOk(a, base, modes, r, BigTok(p, t), w, i, j);
    case Raw(t, r) =>
      BareOk(a, base, modes, p, t);
      ComposeOk(a, base, modes, r, Bare(p, t), w, i, j);
  }

  // A bare < or > in math mode.
  lemma AngleOk(a: Arena, base: nat, modes: map<nat, Math>, tok: Token)
    requires (tok == LESS || tok == GREATER)
    ensures PenOk(a, base, modes, Pen([tok], Yes, Yes))
    ensures FlatToks(a, base, [tok], a.Count()) == [Mark(tok)]
  {
    AddToken(a, base, [], tok);
    assert [] + [tok] == [tok];
    assert FlatToks(a, base, [tok], a.Count()) == [Mark(tok)];
  }

  // ---------- make_reserved ----------

  // b is a with some names switched to reserved words, nothing else.
  ghost predicate Reserved(a: seq<Token>, b: seq<Token>) {
    |a| == |b| && forall i :: 0 <= i < |a| ==> b[i] == a[i] || (IsName(a[i]) && b[i] == Res(a[i].name))
  }

  ghost predicate Recategorised(ss: seq<Scrap>, rr: seq<Scrap>) {
    |ss| == |rr| && forall i :: 0 <= i < |ss| ==>
      rr[i] == ss[i] || (ss[i].cat == Exp && rr[i] == ss[i].(cat := RawInt))
  }

  lemma {:induction false} ReserveScanOk(mem: seq<Token>, starts: seq<nat>, tok: Token, ss: seq<Scrap>)
    requires IsName(tok)
    ensures var r := ReserveScan(mem, starts, tok, ss);
            Reserved(mem, r.0) && Recategorised(ss, r.1)
    decreases |ss|
  {
    if ss != [] {
      ReserveScanOk(mem, starts, tok, ss[..|ss| - 1]);
    }
  }

  // A valid arena whose texts from base on were built by the formatter.
  ghost predicate Shape(a: Arena, base: nat) {
    && a.Valid() && base <= a.Count()
    && (forall t {:trigger a.TextAt(t)} :: base <= t < a.Count() ==> BuiltToks(a.TextAt(t)))
  }

  // b has all the built texts of a, unchanged.
  ghost predicate Extends(a: Arena, b: Arena, base: nat) {
    && a.Count() <= b.Count()
    && (forall t :: base <= t < a.Count() ==> b.TextAt(t) == a.TextAt(t))
  }

  lemma AppendShape(a: Arena, base: nat, toks: seq<Token>)
    requires Shape(a, base) && RefsBelow(toks, a.Count()) && BuiltToks(toks)
    requires a.Free() + |toks| <= |a.mem|
    ensures var b := a.Append(toks);
            Shape(b, base) && Extends(a, b, base)
            && b.Count() == a.Count() + 1 && b.TextAt(a.Count()) == toks
  {
    AppendKeepsTexts(a, toks);
  }

  // Built texts hold no names, so switching names leaves them alone.
  lemma ReservedArena(a: Arena, m: seq<Token>, base: nat)
    requires Shape(a, base) && Reserved(a.mem, m)
    ensures Shape(Arena(m, a.starts), base) && Extends(a, Arena(m, a.starts), base)
  {
    var b := Arena(m, a.starts);
    forall t | 0 <= t < a.Count()
      ensures b.Placed(t) && (base <= t ==> b.TextAt(t) == a.TextAt(t))
    {
      var x, y := a.TextAt(t), b.TextAt(t);
      assert a.Placed(t);
      assert forall i :: 0 <= i < |x| ==> x[i] == a.mem[a.starts[t] + i];
      assert forall i :: 0 <= i < |y| ==> y[i] == m[a.starts[t] + i];
    }
  }

  // make_reserved only switches names to reserved words, and only turns exps into
  // raw_ints; built texts, scrap texts and math modes stay as they are.
  lemma MakeReservedOk(st: State, p: nat, base: nat)
    requires Shape(st.arena, base) && p < |st.lo|
    ensures var s := MakeReserved(st, p);
            && Shape(s.arena, base) && Extends(st.arena, s.arena, base) && s.pp == st.pp
            && s.arena.starts == st.arena.starts && Reserved(st.arena.mem, s.arena.mem)
            && Recategorised(st.lo, s.lo) && Recategorised(st.hi, s.hi)
  {
    var a := st.arena;
    var found := FirstIdent(a, st.lo[p].trans);
    if found.Some? {
      var tok := a.mem[found.value];
      var (m1, near) := ReserveScan(a.mem, a.starts, tok, st.lo[p..]);
      ReserveScanOk(a.mem, a.starts, tok, st.lo[p..]);
      var (m2, far) := ReserveScan(m1, a.starts, tok, st.hi);
      ReserveScanOk(m1, a.starts, tok, st.hi);
      var m3 := m2[found.value := Res(tok.name)];
      assert Reserved(a.mem, m3);
      ReservedArena(a, m3, base);
      assert st.lo == st.lo[..p] + st.lo[p..];
      assert Recategorised(st.lo, st.lo[..p] + near);
    } else {
      assert Reserved(a.mem, a.mem);
    }
  }

  // ---------- what every state satisfies ----------

  // What is known of the leaves: the mode each must be met in and its category.
  datatype Known = Known(base: nat, modes: map<nat, Math>, cats: map<nat, Cat>)

  // x contains a leaf of category c.
  ghost predicate Holds(x: seq<Atom>, k: Known, c: Cat) {
    exists i :: 0 <= i < |x| && x[i].Leaf? && x[i].t in k.cats && k.cats[x[i].t] == c
  }

  // A scrap is balanced and keeps at least one leaf; if it is a < or > it keeps the leaf
  // it came from.
  ghost predicate GoodScrap(a: Arena, k: Known, s: Scrap) {
    && s.cat != Zero
    && ScrapReads(a, k.base, k.modes, s)
    && |ScrapKept(a, k.base, s)| >= 1
    && (IsAngleCat(s.cat) ==> Holds(ScrapKept(a, k.base, s), k, s.cat))
  }

  ghost predicate GoodScraps(a: Arena, k: Known, ss: seq<Scrap>) {
    forall i :: 0 <= i < |ss| ==> GoodScrap(a, k, ss[i])
  }

  // The leaves the scraps stand for, left to right.
  function Leaves(st: State, base: nat): seq<Atom> {
    ScrapsKept(st.arena, base, st.lo + st.hi)
  }

  lemma GoodConcat(a: Arena, k: Known, x: seq<Scrap>, y: seq<Scrap>)
    ensures GoodScraps(a, k, x + y) <==> GoodScraps(a, k, x) && GoodScraps(a, k, y)
  {
    if GoodScraps(a, k, x + y) {
      assert forall i :: 0 <= i < |x| ==> x[i] == (x + y)[i];
      assert forall i :: 0 <= i < |y| ==> y[i] == (x + y)[|x| + i];
    }
  }

  lemma GoodReal(a: Arena, k: Known, x: seq<Scrap>, y: seq<Scrap>)
    requires GoodScraps(a, k, x + y)
    ensures GoodScraps(a, k, x) && GoodScraps(a, k, y)
    ensures RealScraps(x) && RealScraps(y)
  {
    GoodConcat(a, k, x, y);
  }

  lemma GoodFrame(a: Arena, b: Arena, k: Known, ss: seq<Scrap>, rr: seq<Scrap>)
    requires Extends(a, b, k.base) && GoodScraps(a, k, ss) && Recategorised(ss, rr)
    ensures GoodScraps(b, k, rr)
    ensures ScrapsKept(b, k.base, rr) == ScrapsKept(a, k.base, ss)
  {
    forall i | 0 <= i < |ss|
      ensures GoodScrap(b, k, rr[i])
    {
      assert GoodScrap(a, k, ss[i]);
      FlatFrame(a, b, k.base, ss[i].trans);
    }
    FlatScrapsFrame(a, b, k.base, ss, rr);
  }

  lemma SplitLeaves(a: Arena, base: nat, lo: seq<Scrap>, hi: seq<Scrap>, j: nat, n: nat)
    requires j + n <= |lo|
    ensures ScrapsKept(a, base, lo + hi)
         == ScrapsKept(a, base, lo[..j]) + ScrapsKept(a, base, lo[j..j + n])
          + ScrapsKept(a, base, lo[j + n..] + hi)
  {
    var x, y, z := lo[..j], lo[j..j + n], lo[j + n..] + hi;
    assert lo + hi == (x + y) + z;
    ScrapsKeptAppend(a, base, x + y, z);
    ScrapsKeptAppend(a, base, x, y);
  }

  // The text a pen has composed, once closed, means what the pen had composed, and a
  // scrap made of it is good.
  lemma MadeGood(a: Arena, b: Arena, k: Known, cat: Cat, pen: Pen)
    requires Extends(a, b, k.base) && k.base <= a.Count() < b.Count() && b.TextAt(a.Count()) == pen.out
    requires PenOk(a, k.base, k.modes, pen) && cat != Zero
    requires |PenKept(a, k.base, pen)| >= 1
    requires IsAngleCat(cat) ==> Holds(PenKept(a, k.base, pen), k, cat)
    ensures var made := Scrap(cat, pen.init, pen.cur, a.Count());
            GoodScrap(b, k, made) && ScrapKept(b, k.base, made) == PenKept(a, k.base, pen)
  {
    FlatToksFrame(a, b, k.base, pen.out, a.Count());
  }

  lemma Around(a: Arena, b: Arena, k: Known, x: seq<Scrap>, made: Scrap, z: seq<Scrap>)
    requires Extends(a, b, k.base)
    requires GoodScraps(a, k, x) && GoodScraps(a, k, z) && GoodScrap(b, k, made)
    ensures GoodScraps(b, k, x + [made] + z)
    ensures ScrapsKept(b, k.base, x + [made] + z)
         == ScrapsKept(a, k.base, x) + ScrapKept(b, k.base, made) + ScrapsKept(a, k.base, z)
  {
    GoodFrame(a, b, k, x, x);
    GoodFrame(a, b, k, z, z);
    GoodConcat(b, k, x, [made]);
    GoodConcat(b, k, x + [made], z);
    ScrapsKeptOne(b, k.base, made);
    ScrapsKeptAppend(b, k.base, x + [made], z);
    ScrapsKeptAppend(b, k.base, x, [made]);
  }

  lemma Pieces(a: Arena, k: Known, lo: seq<Scrap>, hi: seq<Scrap>, j: nat, n: nat)
    requires j + n <= |lo| && GoodScraps(a, k, lo + hi)
    ensures GoodScraps(a, k, lo[..j]) && GoodScraps(a, k, lo[j..j + n])
    ensures GoodScraps(a, k, lo[j + n..] + hi)
  {
    var x, y, z := lo[..j], lo[j..j + n], lo[j + n..] + hi;
    assert lo + hi == x + (y + z);
    GoodConcat(a, k, x, y + z);
    GoodConcat(a, k, y, z);
  }

  // Replacing scraps by a balanced text keeps all scraps good and replaces exactly
  // their leaves.
  lemma MergeGood(a: Arena, k: Known, lo: seq<Scrap>, hi: seq<Scrap>, j: nat, n: nat, cat: Cat, pen: Pen)
    requires Shape(a, k.base) && GoodScraps(a, k, lo + hi) && j + n <= |lo| && cat != Zero
    requires PenOk(a, k.base, k.modes, pen) && a.Free() + |pen.out| <= |a.mem|
    requires |PenKept(a, k.base, pen)| >= 1
    requires IsAngleCat(cat) ==> Holds(PenKept(a, k.base, pen), k, cat)
    ensures var b := a.Append(pen.out);
            var ss := Replace(lo, j, n, Scrap(cat, pen.init, pen.cur, a.Count())) + hi;
            && GoodScraps(b, k, ss)
            && ScrapsKept(b, k.base, ss)
            == ScrapsKept(a, k.base, lo[..j]) + PenKept(a, k.base, pen)
             + ScrapsKept(a, k.base, lo[j + n..] + hi)
  {
    var b := a.Append(pen.out);
    AppendShape(a, k.base, pen.out);
    Pieces(a, k, lo, hi, j, n);
    MadeGood(a, b, k, cat, pen);
    var made := Scrap(cat, pen.init, pen.cur, a.Count());
    Around(a, b, k, lo[..j], made, lo[j + n..] + hi);
    Associative(lo[..j] + [made], lo[j + n..], hi);
  }
}
