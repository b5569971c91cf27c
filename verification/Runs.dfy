// Whole runs of the formatter: they end, they account for every input scrap in order,
// and the text they return starts and ends outside math mode.
module Runs {
  import opened Wrappers
  import opened Scraps
  import opened Productions
  import opened Meaning
  import opened Translate
  import opened Conservation
  import opened Steps

  // ---------- termination ----------

  function RankSum(ss: seq<Scrap>): nat {
    if ss == [] then 0 else Rank(ss[0].cat) + RankSum(ss[1..])
  }

  lemma {:induction false} RankSumAppend(x: seq<Scrap>, y: seq<Scrap>)
    ensures RankSum(x + y) == RankSum(x) + RankSum(y)
  {
    if x == [] {
      assert x + y == y;
    } else {
      RankSumAppend(x[1..], y);
      assert (x + y)[1..] == x[1..] + y;
    }
  }

  lemma RankSumReplace(x: seq<Scrap>, s: Scrap, r: Scrap, z: seq<Scrap>)
    requires Rank(r.cat) < Rank(s.cat)
    ensures RankSum(x + [r] + z) < RankSum(x + [s] + z)
  {
    RankSumAppend(x + [r], z);
    RankSumAppend(x, [r]);
    RankSumAppend(x + [s], z);
    RankSumAppend(x, [s]);
  }

  // Enough of a state for the formatter to take steps.
  ghost predicate Ready(st: State) {
    && |st.arena.starts| >= 1 && st.pp <= |st.lo| && RealScraps(st.lo) && RealScraps(st.hi)
  }

  function Count(st: State): nat { |st.lo| + |st.hi| }
  function Ranks(st: State): nat { RankSum(st.lo + st.hi) }
  function Ahead(st: State): int { |st.lo| + |st.hi| - st.pp }

  // Fewer scraps, or as many and a lower total rank, or both unchanged and the cursor
  // further on.
  ghost predicate Smaller(s: State, st: State) {
    || Count(s) < Count(st)
    || (Count(s) == Count(st) && Ranks(s) < Ranks(st))
    || (Count(s) == Count(st) && Ranks(s) == Ranks(st) && 0 <= Ahead(s) < Ahead(st))
  }

  lemma ReserveCounts(st: State, p: nat)
    requires p < |st.lo| && Ready(st)
    ensures var s := MakeReserved(st, p);
            Ready(s) && |s.lo| == |st.lo| && |s.hi| == |st.hi| && s.pp == st.pp
            && s.arena.starts == st.arena.starts && |s.arena.mem| == |st.arena.mem|
  {
    var a := st.arena;
    var found := FirstIdent(a, st.lo[p].trans);
    if found.Some? {
      var tok := a.mem[found.value];
      var (m1, near) := ReserveScan(a.mem, a.starts, tok, st.lo[p..]);
      ReserveScanOk(a.mem, a.starts, tok, st.lo[p..]);
      ReserveScanOk(m1, a.starts, tok, st.hi);
    }
  }

  lemma RankDrops(f: State, s: State, j: nat)
    requires j < |f.lo| == |s.lo| && Rank(s.lo[j].cat) < Rank(f.lo[j].cat)
    requires s.lo == f.lo[..j] + [s.lo[j]] + f.lo[j + 1..] && s.hi == f.hi
    ensures Smaller(s, f)
  {
    var x, z := f.lo[..j], f.lo[j + 1..] + f.hi;
    assert f.lo + f.hi == x + [f.lo[j]] + z;
    assert s.lo + s.hi == x + [s.lo[j]] + z;
    RankSumReplace(x, f.lo[j], s.lo[j], z);
  }

  lemma ApplyReady(f: State, p: Production)
    requires Ready(f) && Firing(f, p) && f.pp < |f.lo| && Apply(f, p).Next?
    requires p.keep ==> p.k == 1
    ensures var s := Apply(f, p).state;
            Ready(s) && |s.lo| == |f.lo| - p.k + 1 && |s.hi| == |f.hi|
  {
    if p.reserve.Some? { ReserveCounts(f, f.pp + p.reserve.value); }
    if !p.keep { RewriteReady(Prepared(f, p.reserve), p); }
  }

  lemma RewriteReady(f: State, p: Production)
    requires Ready(f) && Firing(f, p) && Translate.Rewrite(f, p).Next?
    ensures var s := Translate.Rewrite(f, p).state;
            Ready(s) && |s.lo| == |f.lo| - p.k + 1 && |s.hi| == |f.hi|
  {
  }

  // Firing p lowers the rank wherever it leaves the number of scraps alone.
  ghost predicate Lowers(f: State, p: Production) {
    p.Match? ==>
      && Firing(f, p) && (p.keep ==> p.k == 1)
      && (p.k == 1 ==> Rank(p.cat) < Rank(f.lo[f.pp + p.at].cat) && p.reserve == None)
  }

  lemma ChosenLowers(f: State, table: Table)
    requires SoundTable(table) && f.pp < |f.lo| && RealScraps(f.lo)
    ensures Lowers(f, Chosen(f, table))
  {
    ChosenSound(f, table);
    SoundLowers(f, Chosen(f, table));
  }

  lemma SoundLowers(f: State, p: Production)
    requires f.pp < |f.lo| && (p.Match? ==> Firing(f, p))
    requires Sound(p, CatAt(f.lo, f.pp), CatAt(f.lo, f.pp + 1), CatAt(f.lo, f.pp + 2), CatAt(f.lo, f.pp + 3))
    ensures Lowers(f, p)
  {
    if p.Match? { FiringLowers(f, p); }
  }

  lemma FiringLowers(f: State, p: Production)
    requires f.pp < |f.lo| && p.Match? && Firing(f, p)
    requires Sound(p, CatAt(f.lo, f.pp), CatAt(f.lo, f.pp + 1), CatAt(f.lo, f.pp + 2), CatAt(f.lo, f.pp + 3))
    ensures p.keep ==> p.k == 1
    ensures p.k == 1 ==> Rank(p.cat) < Rank(f.lo[f.pp + p.at].cat) && p.reserve == None
  {
    SoundRank(p, CatAt(f.lo, f.pp), CatAt(f.lo, f.pp + 1), CatAt(f.lo, f.pp + 2), CatAt(f.lo, f.pp + 3));
    if p.k == 1 { NthIs(f, p.at); }
  }

  lemma SoundRank(p: Production, c0: Cat, c1: Cat, c2: Cat, c3: Cat)
    requires p.Match? && Sound(p, c0, c1, c2, c3)
    ensures p.at < 4 && (p.keep ==> p.k == 1)
    ensures p.k == 1 ==> Rank(p.cat) < Rank(Nth(c0, c1, c2, c3, p.at)) && p.reserve == None
  {
  }

  lemma ObeySmaller(f: State, p: Production)
    requires Ready(f) && f.pp < |f.lo| && Lowers(f, p) && Obey(f, p).Next?
    ensures Ready(Obey(f, p).state) && Smaller(Obey(f, p).state, f)
  {
    if p.Match? {
      ApplyReady(f, p);
      if p.k == 1 { RankDrops(f, Apply(f, p).state, f.pp + p.at); }
    }
  }

  lemma ActSmaller(f: State, setup: Setup)
    requires Ready(f) && SoundTable(setup.table) && Act(f, setup).Next?
    ensures Ready(Act(f, setup).state) && Smaller(Act(f, setup).state, f)
  {
    ChosenLowers(f, setup.table);
    ObeySmaller(f, Chosen(f, setup.table));
  }

  // Every step that does not finish makes the state smaller.
  lemma StepSmaller(st: State, setup: Setup)
    requires Ready(st) && SoundTable(setup.table) && Step(st, setup).Next?
    ensures Ready(Step(st, setup).state) && Smaller(Step(st, setup).state, st)
  {
    FillScraps(st);
    ActSmaller(Fill(st), setup);
  }

  // The whole run: the final state, or nothing if memory overflows.
  function Run(st: State, setup: Setup): (r: Option<State>)
    requires Ready(st) && SoundTable(setup.table)
    decreases Count(st), Ranks(st), Ahead(st)
  {
    match Step(st, setup)
    case Overflow => None
    case Finished => Some(Fill(st))
    case Next(s) =>
      StepSmaller(st, setup);
      Run(s, setup)
  }

  // ---------- the input ----------

  // What translate is given: a valid arena and scraps, each with its own text, in one
  // mode from start to end.
  ghost predicate Input(a: Arena, ss: seq<Scrap>) {
    && a.Valid()
    && (forall i :: 0 <= i < |ss| ==>
          ss[i].cat != Zero && ss[i].trans < a.Count() && ss[i].init == ss[i].fin)
    && (forall i, j :: 0 <= i < j < |ss| ==> ss[i].trans != ss[j].trans)
  }

  ghost function KnownOf(a: Arena, ss: seq<Scrap>): Known
    requires Input(a, ss)
  {
    Known(a.Count(), map i | 0 <= i < |ss| :: ss[i].trans := ss[i].init,
                     map i | 0 <= i < |ss| :: ss[i].trans := ss[i].cat)
  }

  function Start(a: Arena, ss: seq<Scrap>): State { State(a, [], ss, 0, {}) }

  lemma KnownAt(a: Arena, ss: seq<Scrap>, i: nat)
    requires Input(a, ss) && i < |ss|
    ensures var k := KnownOf(a, ss);
            && ss[i].trans in k.modes && k.modes[ss[i].trans] == ss[i].init
            && ss[i].trans in k.cats && k.cats[ss[i].trans] == ss[i].cat
  {
  }

  lemma StartGood(a: Arena, ss: seq<Scrap>)
    requires Input(a, ss)
    ensures Good(Start(a, ss), KnownOf(a, ss)) && Ready(Start(a, ss))
  {
    var k := KnownOf(a, ss);
    assert [] + ss == ss;
    forall i | 0 <= i < |ss|
      ensures GoodScrap(a, k, ss[i])
    {
      KnownAt(a, ss, i);
      LeafGood(a, k, ss[i]);
    }
  }

  lemma LeafGood(a: Arena, k: Known, s: Scrap)
    requires s.cat != Zero && s.trans < k.base <= a.Count() && s.init == s.fin
    requires s.trans in k.modes && k.modes[s.trans] == s.init
    requires s.trans in k.cats && k.cats[s.trans] == s.cat
    ensures GoodScrap(a, k, s) && ScrapKept(a, k.base, s) == [Leaf(s.trans)]
  {
    var x := [Leaf(s.trans)];
    assert Flat(a, k.base, s.trans) == x;
    assert x[1..] == [];
    assert Kept(x) == x && x[0].Leaf?;
  }

  // ---------- every leaf accounted for, in order ----------

  ghost predicate BlockOk(x: Atom, block: seq<Scrap>) {
    match x
    case Leaf(t) => |block| == 1 && block[0].trans == t
    case Mark(tok) =>
      exists i :: 0 <= i < |block| && IsAngleCat(block[i].cat)
                  && tok == (if block[i].cat == Prelangle then LESS else GREATER)
  }

  // The cuts divide the scraps ss into consecutive nonempty blocks, one for each atom
  // of x: a leaf stands for itself, a < or > for a block holding a scrap of that category.
  ghost predicate Covers(x: seq<Atom>, cuts: seq<nat>, ss: seq<Scrap>) {
    && |cuts| == |x| + 1 && cuts[0] == 0 && cuts[|x|] == |ss|
    && (forall i :: 0 <= i < |x| ==> CutAt(x, cuts, ss, i))
  }

  ghost predicate CutAt(x: seq<Atom>, cuts: seq<nat>, ss: seq<Scrap>, i: nat)
    requires i < |x| && |cuts| == |x| + 1
  {
    cuts[i] < cuts[i + 1] <= |ss| && BlockOk(x[i], ss[cuts[i]..cuts[i + 1]])
  }

  lemma {:induction false} CutsAscend(x: seq<Atom>, cuts: seq<nat>, ss: seq<Scrap>, i: nat, j: nat)
    requires Covers(x, cuts, ss) && i <= j <= |x|
    ensures cuts[i] + (j - i) <= cuts[j] <= |ss|
    decreases j
  {
    if i < j {
      assert CutAt(x, cuts, ss, j - 1);
      CutsAscend(x, cuts, ss, i, j - 1);
    } else if j > 0 {
      assert CutAt(x, cuts, ss, j - 1);
    }
  }

  lemma HeldAt(all: seq<Atom>, cuts: seq<nat>, a: Arena, ss: seq<Scrap>, own: seq<Atom>, lo: nat, c: Cat)
    returns (q: nat)
    requires Input(a, ss) && Covers(all, cuts, ss) && lo + |own| <= |all|
    requires forall i :: 0 <= i < |own| ==> own[i] == all[lo + i]
    requires Holds(own, KnownOf(a, ss), c)
    ensures q < |own| && cuts[lo + q] < cuts[lo + q + 1] <= |ss| && ss[cuts[lo + q]].cat == c
  {
    var k := KnownOf(a, ss);
    q :| 0 <= q < |own| && own[q].Leaf? && own[q].t in k.cats && k.cats[own[q].t] == c;
    assert CutAt(all, cuts, ss, lo + q);
    var at := cuts[lo + q];
    assert ss[at..cuts[lo + q + 1]][0] == ss[at];
    KnownAt(a, ss, at);
  }

  // The blocks of a stretch of atoms that holds a leaf of category c hold a scrap of it.
  lemma BlockHolds(all: seq<Atom>, cuts: seq<nat>, a: Arena, ss: seq<Scrap>, lo: nat, hi: nat, c: Cat)
    requires Input(a, ss) && Covers(all, cuts, ss) && lo <= hi <= |all|
    requires Holds(all[lo..hi], KnownOf(a, ss), c)
    ensures cuts[lo] < cuts[hi] <= |ss|
    ensures exists i :: 0 <= i < cuts[hi] - cuts[lo] && ss[cuts[lo]..cuts[hi]][i].cat == c
  {
    var q := HeldAt(all, cuts, a, ss, all[lo..hi], lo, c);
    CutsAscend(all, cuts, ss, lo, lo + q);
    CutsAscend(all, cuts, ss, lo + q + 1, hi);
    InBlock(ss, cuts[lo], cuts[lo + q], cuts[hi], c);
  }

  lemma InBlock(ss: seq<Scrap>, from: nat, at: nat, to: nat, c: Cat)
    requires from <= at < to <= |ss| && ss[at].cat == c
    ensures exists i :: 0 <= i < to - from && ss[from..to][i].cat == c
  {
    assert ss[from..to][at - from] == ss[at];
  }

  // Replacing a stretch of atoms by one that its blocks together justify.
  lemma CoverCut(all: seq<Atom>, cuts: seq<nat>, ss: seq<Scrap>, lo: nat, hi: nat, mark: Atom)
    requires Covers(all, cuts, ss) && lo <= hi <= |all|
    requires cuts[lo] < cuts[hi] <= |ss| && BlockOk(mark, ss[cuts[lo]..cuts[hi]])
    ensures Covers(all[..lo] + [mark] + all[hi..], cuts[..lo + 1] + cuts[hi..], ss)
  {
    var out, cuts' := all[..lo] + [mark] + all[hi..], cuts[..lo + 1] + cuts[hi..];
    forall i | 0 <= i < |out|
      ensures CutAt(out, cuts', ss, i)
    {
      if i < lo {
        assert CutAt(all, cuts, ss, i);
      } else if i > lo {
        assert CutAt(all, cuts, ss, i + (hi - lo) - 1);
      }
    }
  }

  // Replacing a stretch of atoms, among them a leaf of category c, by the stand-in for c.
  lemma CoverMerged(x: seq<Atom>, own: seq<Atom>, z: seq<Atom>, c: Cat, a: Arena,
                    ss: seq<Scrap>, cuts: seq<nat>)
    requires Input(a, ss) && IsAngleCat(c) && Holds(own, KnownOf(a, ss), c)
    requires Covers(x + own + z, cuts, ss)
    ensures Covered(x + [Mark(if c == Prelangle then LESS else GREATER)] + z, ss)
  {
    var all := x + own + z;
    var lo, hi := |x|, |x| + |own|;
    assert all[lo..hi] == own && all[..lo] == x && all[hi..] == z;
    BlockHolds(all, cuts, a, ss, lo, hi, c);
    CoverCut(all, cuts, ss, lo, hi, Mark(if c == Prelangle then LESS else GREATER));
  }

  lemma {:induction false} CoverStart(a: Arena, base: nat, ss: seq<Scrap>)
    requires forall i :: 0 <= i < |ss| ==> ss[i].trans < base
    ensures |ScrapsKept(a, base, ss)| == |ss|
    ensures forall i :: 0 <= i < |ss| ==> ScrapsKept(a, base, ss)[i] == Leaf(ss[i].trans)
  {
    if ss != [] {
      CoverStart(a, base, ss[1..]);
      ScrapsKeptCons(a, base, ss, 0, |ss|);
      assert ss[0..|ss|] == ss && ss[1..|ss|] == ss[1..];
      assert Flat(a, base, ss[0].trans) == [Leaf(ss[0].trans)];
      assert Kept([Leaf(ss[0].trans)]) == [Leaf(ss[0].trans)];
    }
  }

  ghost predicate Covered(x: seq<Atom>, ss: seq<Scrap>) {
    exists cuts: seq<nat> :: Covers(x, cuts, ss)
  }

  lemma StepCovers(st: State, a: Arena, ss: seq<Scrap>, setup: Setup)
    requires Input(a, ss) && Good(st, KnownOf(a, ss)) && Ready(st) && SoundTable(setup.table)
    requires Covered(Leaves(st, a.Count()), ss) && Step(st, setup).Next?
    ensures Covered(Leaves(Step(st, setup).state, a.Count()), ss)
  {
    var k := KnownOf(a, ss);
    var f := Fill(st);
    var s := Step(st, setup).state;
    StepGood(st, k, setup);
    FillGood(st, k);
    if AngleNext(f, setup.table) {
      var cuts :| Covers(Leaves(f, k.base), cuts, ss);
      ChosenSound(f, setup.table);
      Classify(f, Chosen(f, setup.table));
      assert (f.lo + f.hi)[f.pp] == f.lo[f.pp];
      assert GoodScrap(f.arena, k, f.lo[f.pp]);
      CoverMerged(ScrapsKept(f.arena, k.base, f.lo[..f.pp]),
                  ScrapKept(f.arena, k.base, f.lo[f.pp]),
                  ScrapsKept(f.arena, k.base, f.lo[f.pp + 1..] + f.hi),
                  f.lo[f.pp].cat, a, ss, cuts);
    }
  }

  // No step of the run drops leaves.
  ghost predicate Lossless(st: State, setup: Setup, base: nat)
    requires Ready(st) && SoundTable(setup.table)
    decreases Count(st), Ranks(st), Ahead(st)
  {
    match Step(st, setup)
    case Next(s) =>
      StepSmaller(st, setup);
      !LosesNext(Fill(st), setup.table, base) && Lossless(s, setup, base)
    case _ => true
  }

  // A step never adds leaves, and drops some exactly when it loses them.
  lemma StepCounts(st: State, k: Known, setup: Setup)
    requires Good(st, k) && Ready(st) && SoundTable(setup.table) && Step(st, setup).Next?
    ensures |Leaves(Step(st, setup).state, k.base)| <= |Leaves(st, k.base)|
    ensures |Leaves(Step(st, setup).state, k.base)| == |Leaves(st, k.base)|
        <==> !LosesNext(Fill(st), setup.table, k.base)
  {
    StepGood(st, k, setup);
    FillGood(st, k);
    var f := Fill(st);
    if AngleNext(f, setup.table) {
      assert (f.lo + f.hi)[f.pp] == f.lo[f.pp];
      assert GoodScrap(f.arena, k, f.lo[f.pp]);
    }
  }

  // The leaves of the final scraps stand for the input scraps, block by block in order;
  // the blocks are all single scraps exactly when no step of the run lost leaves.
  lemma {:induction false} RunConserves(st: State, a: Arena, ss: seq<Scrap>, setup: Setup)
    requires Input(a, ss) && Good(st, KnownOf(a, ss)) && Ready(st) && SoundTable(setup.table)
    requires Covered(Leaves(st, a.Count()), ss) && Run(st, setup).Some?
    ensures var f := Run(st, setup).value;
            && Good(f, KnownOf(a, ss)) && f.hi == []
            && Covered(Leaves(f, a.Count()), ss)
            && |Leaves(f, a.Count())| <= |Leaves(st, a.Count())|
            && (|Leaves(f, a.Count())| == |Leaves(st, a.Count())| <==> Lossless(st, setup, a.Count()))
    decreases Count(st), Ranks(st), Ahead(st)
  {
    var k := KnownOf(a, ss);
    match Step(st, setup)
    case Finished =>
      FillGood(st, k);
      FillScraps(st);
    case Next(s) =>
      StepSmaller(st, setup);
      StepGood(st, k, setup);
      StepCovers(st, a, ss, setup);
      StepCounts(st, k, setup);
      RunConserves(s, a, ss, setup);
  }

  // ---------- the text returned ----------

  // The final scraps one after the other, each between $ signs where its ends are in
  // math mode.
  function Closing(ss: seq<Scrap>, first: bool): seq<Token> {
    if ss == [] then [] else Wrapped(ss[0], first) + Closing(ss[1..], false)
  }

  function Wrapped(s: Scrap, first: bool): seq<Token> {
    (if first then [] else [SPACE]) + Dollar(s.init) + [Text(s.trans)] + Dollar(s.fin)
  }

  function Dollar(m: Math): seq<Token> { if m == Yes then [DOLLAR] else [] }

  // The whole of translate: the arena afterwards and the number of the text returned,
  // or nothing if memory overflows.
  function Translation(a: Arena, ss: seq<Scrap>, setup: Setup): Option<(Arena, nat)>
    requires Ready(Start(a, ss)) && SoundTable(setup.table)
  {
    match Run(Start(a, ss), setup)
    case None => None
    case Some(f) => Closed(f)
  }

  // What is made of the final state f.
  function Closed(f: State): Option<(Arena, nat)> {
    var out := Closing(f.lo, true);
    if |f.arena.starts| == 0 || f.arena.Free() + |out| + (if f.lo == [] then 0 else 7) > |f.arena.mem| then None
    else Some((f.arena.Append(out), f.arena.Count()))
  }

  // Reading the closing text of one scrap, from text mode to text mode.
  lemma OneClosing(a: Arena, k: Known, s: Scrap, first: bool)
    requires GoodScrap(a, k, s)
    ensures var x := FlatToks(a, k.base, Wrapped(s, first), a.Count());
            Read(x, k.modes, No) == Some(No) && Kept(x) == ScrapKept(a, k.base, s)
  {
    var p0 := if first then [] else [SPACE];
    FewMarks(a, k.base, p0, k.modes, No);
    FewMarks(a, k.base, Dollar(s.init), k.modes, No);
    FewMarks(a, k.base, Dollar(s.fin), k.modes, if s.fin == Yes then Yes else No);
    TextAlone(a, k.base, s.trans);
    Four(a, k.base, p0, Dollar(s.init), [Text(s.trans)], Dollar(s.fin));
    var x0, x1, x2 := FlatToks(a, k.base, p0, a.Count()), FlatToks(a, k.base, Dollar(s.init), a.Count()),
                      FlatToks(a, k.base, Dollar(s.fin), a.Count());
    KeptFour(x0, x1, Flat(a, k.base, s.trans), x2);
    ReadFour(x0, x1, Flat(a, k.base, s.trans), x2, k.modes);
  }

  lemma TextAlone(a: Arena, base: nat, t: nat)
    requires t < a.Count()
    ensures FlatToks(a, base, [Text(t)], a.Count()) == Flat(a, base, t)
  {
    AddToken(a, base, [], Text(t));
    assert [] + [Text(t)] == [Text(t)];
  }

  lemma FewMarks(a: Arena, base: nat, p: seq<Token>, modes: map<nat, Math>, m: Math)
    requires p == [] || p == [SPACE] || p == [DOLLAR]
    requires m != Maybe
    ensures var x := FlatToks(a, base, p, a.Count());
            Kept(x) == [] && Read(x, modes, m) == Some(if p == [DOLLAR] then (if m == Yes then No else Yes) else m)
  {
    if p != [] { OneMark(a, base, p[0], modes, m, a.Count()); }
  }

  lemma Four(a: Arena, base: nat, x: seq<Token>, y: seq<Token>, z: seq<Token>, w: seq<Token>)
    ensures FlatToks(a, base, x + y + z + w, a.Count())
         == FlatToks(a, base, x, a.Count()) + FlatToks(a, base, y, a.Count())
          + FlatToks(a, base, z, a.Count()) + FlatToks(a, base, w, a.Count())
  {
    FlatToksAppend(a, base, x + y + z, w, a.Count());
    FlatToksAppend(a, base, x + y, z, a.Count());
    FlatToksAppend(a, base, x, y, a.Count());
  }

  lemma KeptFour(x: seq<Atom>, y: seq<Atom>, z: seq<Atom>, w: seq<Atom>)
    requires Kept(x) == [] && Kept(y) == [] && Kept(w) == []
    ensures Kept(x + y + z + w) == Kept(z)
  {
    KeptAppend(x + y + z, w);
    KeptAppend(x + y, z);
    KeptAppend(x, y);
  }

  lemma ReadFour(x: seq<Atom>, y: seq<Atom>, z: seq<Atom>, w: seq<Atom>, modes: map<nat, Math>)
    ensures Read(x + y + z + w, modes, No) ==
            (match Read(x, modes, No) case None => None case Some(a) =>
             match Read(y, modes, a) case None => None case Some(b) =>
             match Read(z, modes, b) case None => None case Some(c) => Read(w, modes, c))
  {
    ReadAppend(x + y + z, w, modes, No);
    ReadAppend(x + y, z, modes, No);
    ReadAppend(x, y, modes, No);
  }

  lemma RefsGood(a: Arena, k: Known, ss: seq<Scrap>)
    requires GoodScraps(a, k, ss)
    ensures RefsScraps(a, ss)
  {
    assert forall i :: 0 <= i < |ss| ==> GoodScrap(a, k, ss[i]);
  }

  lemma {:induction false} ClosingBuilt(a: Arena, ss: seq<Scrap>, first: bool)
    requires RefsScraps(a, ss)
    ensures RefsBelow(Closing(ss, first), a.Count()) && BuiltToks(Closing(ss, first))
  {
    if ss != [] {
      ClosingBuilt(a, ss[1..], false);
      var head := Wrapped(ss[0], first);
      assert RefsBelow(head, a.Count()) && BuiltToks(head);
    }
  }

  lemma {:induction false} ClosingReads(a: Arena, k: Known, ss: seq<Scrap>, first: bool)
    requires GoodScraps(a, k, ss)
    ensures var x := FlatToks(a, k.base, Closing(ss, first), a.Count());
            Read(x, k.modes, No) == Some(No) && Kept(x) == ScrapsKept(a, k.base, ss)
  {
    if ss != [] {
      ClosingReads(a, k, ss[1..], false);
      OneClosing(a, k, ss[0], first);
      var head, rest := Wrapped(ss[0], first), Closing(ss[1..], false);
      var x, y := FlatToks(a, k.base, head, a.Count()), FlatToks(a, k.base, rest, a.Count());
      FlatToksAppend(a, k.base, head, rest, a.Count());
      KeptAppend(x, y);
      ReadAppend(x, y, k.modes, No);
      ScrapsKeptCons(a, k.base, ss, 0, |ss|);
      assert ss[0..|ss|] == ss && ss[1..|ss|] == ss[1..];
    }
  }

  // The main result.  Whatever productions fire, the text returned reads from text mode
  // to text mode with every leaf met in its own mode, and its leaves stand for the input
  // scraps block by block, in order; every block is a single scrap exactly when no step
  // of the run lost leaves.
  lemma TranslationCorrect(a: Arena, ss: seq<Scrap>, setup: Setup)
    requires Input(a, ss) && SoundTable(setup.table)
    ensures Ready(Start(a, ss))
    ensures Translation(a, ss, setup).Some? ==>
              var (b, t) := Translation(a, ss, setup).value;
              var x := Flat(b, a.Count(), t);
              && Shape(b, a.Count()) && t < b.Count()
              && Read(x, KnownOf(a, ss).modes, No) == Some(No)
              && Covered(Kept(x), ss)
              && |Kept(x)| <= |ss|
              && (|Kept(x)| == |ss| <==> Lossless(Start(a, ss), setup, a.Count()))
  {
    var k := KnownOf(a, ss);
    StartGood(a, ss);
    StartCovered(a, ss);
    if Translation(a, ss, setup).Some? {
      RunConserves(Start(a, ss), a, ss, setup);
      var f := Run(Start(a, ss), setup).value;
      assert f.lo + f.hi == f.lo;
      var out := Closing(f.lo, true);
      ClosingReads(f.arena, k, f.lo, true);
      RefsGood(f.arena, k, f.lo);
      ClosingBuilt(f.arena, f.lo, true);
      AppendShape(f.arena, k.base, out);
      FlatToksFrame(f.arena, f.arena.Append(out), k.base, out, f.arena.Count());
    }
  }

  // x but for its dollars.
  function NoDollars(x: seq<Token>): seq<Token> {
    if x == [] then [] else (if x[0] == DOLLAR then [] else [x[0]]) + NoDollars(x[1..])
  }

  lemma {:induction false} NoDollarsAppend(x: seq<Token>, y: seq<Token>)
    ensures NoDollars(x + y) == NoDollars(x) + NoDollars(y)
  {
    if x == [] {
      assert x + y == y;
    } else {
      var z := x + y;
      assert z[0] == x[0] && z[1..] == x[1..] + y;
      NoDollarsAppend(x[1..], y);
    }
  }

  // The scraps ss in a row, a space before each.
  ghost predicate InRow(x: seq<Token>, ss: seq<Scrap>) {
    |x| == 2 * |ss| && forall i :: 0 <= i < |ss| ==> x[2 * i] == SPACE && x[2 * i + 1] == Text(ss[i].trans)
  }

  lemma InRowMore(s: Scrap, ss: seq<Scrap>, y: seq<Token>)
    requires InRow(y, ss)
    ensures InRow([SPACE, Text(s.trans)] + y, [s] + ss)
  {
    var x, all := [SPACE, Text(s.trans)] + y, [s] + ss;
    forall i | 0 <= i < |all|
      ensures x[2 * i] == SPACE && x[2 * i + 1] == Text(all[i].trans)
    {
      if i > 0 { assert all[i] == ss[i - 1] && x[2 * i] == y[2 * (i - 1)] && x[2 * i + 1] == y[2 * (i - 1) + 1]; }
    }
  }

  // The scraps left over are set in a row, one space between each and the next.
  lemma {:induction false} ClosingSpaced(ss: seq<Scrap>, first: bool)
    requires first ==> ss != []
    ensures InRow((if first then [SPACE] else []) + NoDollars(Closing(ss, first)), ss)
  {
    if ss != [] {
      var head, rest := Wrapped(ss[0], first), Closing(ss[1..], false);
      ClosingSpaced(ss[1..], false);
      assert [] + NoDollars(rest) == NoDollars(rest);
      InRowMore(ss[0], ss[1..], NoDollars(rest));
      assert [ss[0]] + ss[1..] == ss;
      WrappedSpaced(ss[0], first, head, rest);
    }
  }

  lemma WrappedSpaced(s: Scrap, first: bool, head: seq<Token>, rest: seq<Token>)
    requires head == Wrapped(s, first)
    ensures (if first then [SPACE] else []) + NoDollars(head + rest) == [SPACE, Text(s.trans)] + NoDollars(rest)
  {
    var b, d := if first then [] else [SPACE], [Text(s.trans)];
    NoDollarsAppend(b + Dollar(s.init) + d, Dollar(s.fin));
    NoDollarsAppend(b + Dollar(s.init), d);
    NoDollarsAppend(b, Dollar(s.init));
    assert NoDollars(head) == b + d;
    NoDollarsAppend(head, rest);
  }

  // What that reading comes to, token by token: in the text returned line breaks and what else
  // belongs outside math are outside, braces and relations inside, and every leaf is met in its
  // own mode.
  lemma TranslationModes(a: Arena, ss: seq<Scrap>, setup: Setup)
    requires Input(a, ss) && SoundTable(setup.table)
    ensures Ready(Start(a, ss))
    ensures Translation(a, ss, setup).Some? ==>
              var (b, t) := Translation(a, ss, setup).value;
              ModesKept(Flat(b, a.Count(), t), ss)
  {
    TranslationCorrect(a, ss, setup);
    if Translation(a, ss, setup).Some? {
      var (b, t) := Translation(a, ss, setup).value;
      ModesMeant(a, ss, Flat(b, a.Count(), t));
    }
  }

  // x begins and ends outside math, and whatever in it has a mode is met in that mode.
  ghost predicate ModesKept(x: seq<Atom>, ss: seq<Scrap>) {
    && ModeAt(x, |x|, No) == No
    && (forall i :: 0 <= i < |x| && x[i].Mark? && Belongs(x[i].tok) != Maybe ==>
          ModeAt(x, i, No) == Belongs(x[i].tok))
    && (forall i, j :: 0 <= i < |x| && 0 <= j < |ss| && x[i] == Leaf(ss[j].trans) && ss[j].init != Maybe ==>
          ModeAt(x, i, No) == ss[j].init)
  }

  lemma ModesMeant(a: Arena, ss: seq<Scrap>, x: seq<Atom>)
    requires Input(a, ss) && Read(x, KnownOf(a, ss).modes, No) == Some(No)
    ensures ModesKept(x, ss)
  {
    var modes := KnownOf(a, ss).modes;
    ReadMeans(x, modes, No);
    forall i | 0 <= i < |x| && x[i].Mark? && Belongs(x[i].tok) != Maybe
      ensures ModeAt(x, i, No) == Belongs(x[i].tok)
    {
      FittingMark(x[i], modes, ModeAt(x, i, No));
    }
    forall i, j | 0 <= i < |x| && 0 <= j < |ss| && x[i] == Leaf(ss[j].trans) && ss[j].init != Maybe
      ensures ModeAt(x, i, No) == ss[j].init
    {
      KnownAt(a, ss, j);
      assert Fitting(x[i], modes, ModeAt(x, i, No));
    }
  }

  lemma FittingMark(x: Atom, modes: map<nat, Math>, m: Math)
    requires Fitting(x, modes, m) && x.Mark? && Belongs(x.tok) != Maybe
    ensures m == Belongs(x.tok)
  {
  }

  lemma StartCovered(a: Arena, ss: seq<Scrap>)
    requires Input(a, ss)
    ensures |Leaves(Start(a, ss), a.Count())| == |ss| && Covered(Leaves(Start(a, ss), a.Count()), ss)
  {
    assert [] + ss == ss;
    CoverStart(a, a.Count(), ss);
    CoverAlone(ScrapsKept(a, a.Count(), ss), ss);
  }

  lemma CoverAlone(x: seq<Atom>, ss: seq<Scrap>)
    requires |x| == |ss| && forall i :: 0 <= i < |ss| ==> x[i] == Leaf(ss[i].trans)
    ensures Covered(x, ss)
  {
    var cuts := seq(|ss| + 1, i => i);
    forall i | 0 <= i < |x|
      ensures CutAt(x, cuts, ss, i)
    {
      assert ss[i..i + 1][0] == ss[i];
    }
    assert Covers(x, cuts, ss);
  }

  // ---------- exactly when nothing is lost ----------

  // As many atoms as scraps: each stands for the one in its place.
  lemma SingleBlocks(x: seq<Atom>, ss: seq<Scrap>)
    requires Covered(x, ss) && |x| == |ss|
    ensures forall i :: 0 <= i < |ss| ==> BlockOk(x[i], [ss[i]])
  {
    var cuts :| Covers(x, cuts, ss);
    forall i | 0 <= i < |ss|
      ensures BlockOk(x[i], [ss[i]])
    {
      CutsAscend(x, cuts, ss, 0, i);
      CutsAscend(x, cuts, ss, i + 1, |x|);
      assert CutAt(x, cuts, ss, i);
      assert ss[i..i + 1] == [ss[i]];
    }
  }

  // No scrap is a < or > if no leaf was.
  lemma NoAngleScrap(arena: Arena, s: Scrap, a: Arena, ss: seq<Scrap>)
    requires Input(a, ss) && GoodScrap(arena, KnownOf(a, ss), s)
    requires forall i :: 0 <= i < |ss| ==> !IsAngleCat(ss[i].cat)
    ensures !IsAngleCat(s.cat)
  {
  }

  lemma NoAngleNext(f: State, a: Arena, ss: seq<Scrap>, table: Table)
    requires Input(a, ss) && Good(f, KnownOf(a, ss)) && RealScraps(f.lo) && SoundTable(table)
    requires forall i :: 0 <= i < |ss| ==> !IsAngleCat(ss[i].cat)
    ensures !AngleNext(f, table)
  {
    if f.pp < |f.lo| {
      assert (f.lo + f.hi)[f.pp] == f.lo[f.pp];
      NoAngleScrap(f.arena, f.lo[f.pp], a, ss);
      ChosenSound(f, table);
    }
  }

  // Without < and > among the input nothing is ever lost.
  lemma {:induction false} LosslessWithoutAngles(st: State, a: Arena, ss: seq<Scrap>, setup: Setup)
    requires Input(a, ss) && Good(st, KnownOf(a, ss)) && Ready(st) && SoundTable(setup.table)
    requires forall i :: 0 <= i < |ss| ==> !IsAngleCat(ss[i].cat)
    ensures Lossless(st, setup, a.Count())
    decreases Count(st), Ranks(st), Ahead(st)
  {
    var k := KnownOf(a, ss);
    match Step(st, setup)
    case Next(s) =>
      StepSmaller(st, setup);
      StepGood(st, k, setup);
      FillGood(st, k);
      NoAngleNext(Fill(st), a, ss, setup.table);
      LosslessWithoutAngles(s, a, ss, setup);
    case _ =>
  }
}
