// Leaves are lost only where a comment or other insert is glued to a < or >.  If the input has
// none where it could be, then each < and > is replaced by itself.
module Inserts {
  import opened Wrappers
  import opened Scraps
  import opened Productions
  import opened Meaning
  import opened Translate
  import opened Conservation
  import opened Steps
  import opened Runs

  // A < or > only with the text it was given.
  ghost predicate PlainScrap(s: Scrap, base: nat) { IsAngleCat(s.cat) ==> s.trans < base }

  ghost predicate AllPlain(ss: seq<Scrap>, base: nat) {
    forall i :: 0 <= i < |ss| ==> PlainScrap(ss[i], base)
  }

  // No insert, nor what becomes one, directly after a < or >.
  ghost predicate FreeAfter(ss: seq<Scrap>) {
    forall i :: 0 < i < |ss| ==> !(IsAngleCat(ss[i - 1].cat) && Opens(ss[i].cat))
  }

  // The same directly before.
  ghost predicate FreeBefore(ss: seq<Scrap>) {
    forall i :: 0 < i < |ss| ==> !(Closes(ss[i - 1].cat) && IsAngleCat(ss[i].cat))
  }

  // An insert goes to the scrap before it; only at the very beginning can it go to the one after.
  ghost predicate Apart(ss: seq<Scrap>) {
    FreeAfter(ss) && (ss != [] && Opens(ss[0].cat) ==> FreeBefore(ss))
  }

  ghost predicate Quiet(ss: seq<Scrap>, base: nat) { AllPlain(ss, base) && Apart(ss) }

  // The cursor comes to no insert but the first scrap.
  ghost predicate Clear(ss: seq<Scrap>, pp: nat) { forall i :: 1 <= i <= pp && i < |ss| ==> ss[i].cat != Insert }

  ghost predicate QuietState(st: State, base: nat) { Quiet(st.lo + st.hi, base) && Clear(st.lo + st.hi, st.pp) }

  // The scraps taken together may be replaced by one of category c.
  ghost predicate Harmless(w: seq<Scrap>, c: Cat) {
    && w != [] && !IsAngleCat(c)
    && (Opens(c) ==> Opens(w[0].cat)) && (Closes(c) ==> Closes(w[|w| - 1].cat))
  }

  lemma QuietReplaced(x: seq<Scrap>, w: seq<Scrap>, z: seq<Scrap>, s: Scrap, base: nat)
    requires Quiet(x + w + z, base) && Harmless(w, s.cat)
    ensures Quiet(x + [s] + z, base)
  {
    var was, now := x + w + z, x + [s] + z;
    var gone := |w| - 1;
    forall i | 0 <= i < |now|
      ensures PlainScrap(now[i], base)
    {
      if i < |x| { assert now[i] == was[i]; } else if i > |x| { assert now[i] == was[i + gone]; }
    }
    FreeAfterReplaced(x, w, z, s);
    if Opens(now[0].cat) {
      assert Opens(was[0].cat);
      FreeBeforeReplaced(x, w, z, s);
    }
  }

  lemma FreeAfterReplaced(x: seq<Scrap>, w: seq<Scrap>, z: seq<Scrap>, s: Scrap)
    requires FreeAfter(x + w + z) && Harmless(w, s.cat)
    ensures FreeAfter(x + [s] + z)
  {
    var was, now := x + w + z, x + [s] + z;
    var gone := |w| - 1;
    forall i | 0 < i < |now|
      ensures !(IsAngleCat(now[i - 1].cat) && Opens(now[i].cat))
    {
      assert was[|x|] == w[0] && now[|x|] == s;
      if i < |x| {
        assert now[i] == was[i] && now[i - 1] == was[i - 1];
      } else if i == |x| {
        assert now[i - 1] == was[i - 1];
      } else if i > |x| + 1 {
        assert now[i] == was[i + gone] && now[i - 1] == was[i + gone - 1];
      }
    }
  }

  lemma FreeBeforeReplaced(x: seq<Scrap>, w: seq<Scrap>, z: seq<Scrap>, s: Scrap)
    requires FreeBefore(x + w + z) && Harmless(w, s.cat)
    ensures FreeBefore(x + [s] + z)
  {
    var was, now := x + w + z, x + [s] + z;
    var gone := |w| - 1;
    forall i | 0 < i < |now|
      ensures !(Closes(now[i - 1].cat) && IsAngleCat(now[i].cat))
    {
      assert was[|x| + gone] == w[gone] && now[|x|] == s;
      if i < |x| {
        assert now[i] == was[i] && now[i - 1] == was[i - 1];
      } else if i == |x| + 1 {
        assert now[i] == was[i + gone];
      } else if i > |x| + 1 {
        assert now[i] == was[i + gone] && now[i - 1] == was[i + gone - 1];
      }
    }
  }

  // What replacing the scraps w at place at from the cursor, and moving that by d, takes for
  // the cursor to come to no insert.
  ghost predicate Onward(ss: seq<Scrap>, pp: nat, at: nat, k: nat, d: int, c: Cat) {
    && pp < |ss| && pp + at + k <= |ss|
    && (c == Insert && d >= at ==> ss[pp].cat == Insert && d == 0)
    && (d > 0 ==> d == 1 && (at == 1 || (at == 0 && k == 2 && (pp + 2 < |ss| ==> ss[pp + 2].cat != Insert))))
  }

  lemma ClearReplaced(x: seq<Scrap>, w: seq<Scrap>, z: seq<Scrap>, s: Scrap, pp: nat, d: int)
    requires w != [] && pp <= |x| && Clear(x + w + z, pp)
    requires Onward(x + w + z, pp, |x| - pp, |w|, d, s.cat)
    ensures Clear(x + [s] + z, Max(pp + d, 0))
  {
    var was, now := x + w + z, x + [s] + z;
    forall i | 1 <= i <= Max(pp + d, 0) && i < |now|
      ensures now[i].cat != Insert
    {
      if i < |x| { assert now[i] == was[i]; } else if i > |x| { assert now[i] == was[i + |w| - 1]; }
    }
  }

  // Categories changed from exp to raw_int do not matter.
  ghost predicate Alike(ss: seq<Scrap>, rr: seq<Scrap>) {
    |ss| == |rr| && forall i :: 0 <= i < |ss| ==> AlikeScrap(ss[i], rr[i])
  }

  predicate AlikeScrap(s: Scrap, r: Scrap) { r == s || (s.cat == Exp && r == s.(cat := RawInt)) }

  lemma QuietAlike(ss: seq<Scrap>, rr: seq<Scrap>, base: nat)
    requires Quiet(ss, base) && Alike(ss, rr)
    ensures Quiet(rr, base)
  {
    forall i | 0 <= i < |rr|
      ensures PlainScrap(rr[i], base)
    {
      assert AlikeScrap(ss[i], rr[i]);
    }
    forall i | 0 < i < |rr|
      ensures !(IsAngleCat(rr[i - 1].cat) && Opens(rr[i].cat))
      ensures FreeBefore(ss) ==> !(Closes(rr[i - 1].cat) && IsAngleCat(rr[i].cat))
    {
      assert AlikeScrap(ss[i], rr[i]) && AlikeScrap(ss[i - 1], rr[i - 1]);
    }
    assert ss != [] ==> AlikeScrap(ss[0], rr[0]);
  }

  lemma ClearAlike(ss: seq<Scrap>, rr: seq<Scrap>, pp: nat)
    requires Clear(ss, pp) && Alike(ss, rr)
    ensures Clear(rr, pp)
  {
    forall i | 1 <= i <= pp && i < |rr|
      ensures rr[i].cat != Insert
    {
      assert AlikeScrap(ss[i], rr[i]);
    }
  }

  lemma {:induction false} ScanAlike(mem: seq<Token>, starts: seq<nat>, tok: Token, ss: seq<Scrap>)
    requires IsName(tok)
    ensures Alike(ss, ReserveScan(mem, starts, tok, ss).1)
  {
    if ss != [] { ScanAlike(mem, starts, tok, ss[..|ss| - 1]); }
  }

  lemma ReservedAlike(st: State, p: nat)
    requires p < |st.lo|
    ensures Alike(st.lo + st.hi, MakeReserved(st, p).lo + MakeReserved(st, p).hi)
    ensures |MakeReserved(st, p).lo| == |st.lo|
  {
    var a := st.arena;
    var found := FirstIdent(a, st.lo[p].trans);
    if found.Some? {
      var tok := a.mem[found.value];
      ScanAlike(a.mem, a.starts, tok, st.lo[p..]);
      ScanAlike(ReserveScan(a.mem, a.starts, tok, st.lo[p..]).0, a.starts, tok, st.hi);
    }
  }

  lemma QuietPrepared(st: State, reserve: Option<nat>, base: nat)
    requires QuietState(st, base) && (reserve.Some? ==> st.pp + reserve.value < |st.lo|)
    ensures QuietState(Prepared(st, reserve), base) && |Prepared(st, reserve).lo| == |st.lo|
    ensures Alike(st.lo + st.hi, Prepared(st, reserve).lo + Prepared(st, reserve).hi)
  {
    if reserve.Some? {
      ReservedAlike(st, st.pp + reserve.value);
      QuietAlike(st.lo + st.hi, Prepared(st, reserve).lo + Prepared(st, reserve).hi, base);
      ClearAlike(st.lo + st.hi, Prepared(st, reserve).lo + Prepared(st, reserve).hi, st.pp);
    }
  }

  lemma Parts(lo: seq<Scrap>, hi: seq<Scrap>, j: nat, n: nat, s: Scrap)
    requires j + n <= |lo|
    ensures lo + hi == lo[..j] + lo[j..j + n] + (lo[j + n..] + hi)
    ensures Replace(lo, j, n, s) + hi == lo[..j] + [s] + (lo[j + n..] + hi)
  {
  }

  // Productions that do no harm: what they make of the scraps they take, and where they leave
  // the cursor.
  ghost predicate Fair(ss: seq<Scrap>, pp: nat, p: Production) {
    && p.Match? && 1 <= p.k && pp + p.at + p.k <= |ss|
    && Harmless(ss[pp + p.at..pp + p.at + p.k], p.cat) && Onward(ss, pp, p.at, p.k, p.d, p.cat)
  }

  // A changed exp is no insert, so a fair production stays so.
  lemma FairAlike(ss: seq<Scrap>, rr: seq<Scrap>, pp: nat, p: Production)
    requires Fair(ss, pp, p) && Alike(ss, rr)
    ensures Fair(rr, pp, p)
  {
    HarmlessAlike(ss, rr, pp + p.at, p.k, p.cat);
    assert AlikeScrap(ss[pp], rr[pp]);
    assert pp + 2 < |ss| ==> AlikeScrap(ss[pp + 2], rr[pp + 2]);
  }

  lemma HarmlessAlike(ss: seq<Scrap>, rr: seq<Scrap>, j: nat, k: nat, c: Cat)
    requires Alike(ss, rr) && 1 <= k && j + k <= |ss| && Harmless(ss[j..j + k], c)
    ensures Harmless(rr[j..j + k], c)
  {
    assert AlikeScrap(ss[j], rr[j]) && AlikeScrap(ss[j + k - 1], rr[j + k - 1]);
    EndsOf(ss, j, k);
    EndsOf(rr, j, k);
  }

  lemma EndsOf(ss: seq<Scrap>, j: nat, k: nat)
    requires 1 <= k && j + k <= |ss|
    ensures var w := ss[j..j + k]; |w| == k && w[0] == ss[j] && w[|w| - 1] == ss[j + k - 1]
  {
  }

  lemma QuietPut(lo: seq<Scrap>, hi: seq<Scrap>, pp: nat, p: Production, s: Scrap, base: nat)
    requires Quiet(lo + hi, base) && Clear(lo + hi, pp) && Fair(lo + hi, pp, p)
    requires pp + p.at + p.k <= |lo| && s.cat == p.cat
    ensures var ss := Replace(lo, pp + p.at, p.k, s) + hi;
            Quiet(ss, base) && Clear(ss, Max(pp + p.d, 0))
  {
    var j := pp + p.at;
    Parts(lo, hi, j, p.k, s);
    assert lo[j..j + p.k] == (lo + hi)[j..j + p.k];
    QuietReplaced(lo[..j], lo[j..j + p.k], lo[j + p.k..] + hi, s, base);
    ClearReplaced(lo[..j], lo[j..j + p.k], lo[j + p.k..] + hi, s, pp, p.d);
  }

  lemma QuietApply(f: State, p: Production, base: nat)
    requires QuietState(f, base) && Firing(f, p) && |f.arena.starts| >= 1 && Apply(f, p).Next?
    requires Fair(f.lo + f.hi, f.pp, p) && (p.keep ==> p.k == 1)
    ensures QuietState(Apply(f, p).state, base)
  {
    if p.keep {
      var s := RelabelledBy(f, p);
      QuietPut(f.lo, f.hi, f.pp, p, s, base);
    } else {
      QuietPrepared(f, p.reserve, base);
      FairPrepared(f, p);
      QuietRewritten(Prepared(f, p.reserve), p, base);
    }
  }

  lemma RelabelledBy(f: State, p: Production) returns (s: Scrap)
    requires Firing(f, p) && p.k == 1 && p.keep && |f.arena.starts| >= 1
    ensures Apply(f, p).Next? && s.cat == p.cat
    ensures var st := Apply(f, p).state;
            st.lo == Replace(f.lo, f.pp + p.at, p.k, s) && st.hi == f.hi && st.pp == Max(f.pp + p.d, 0)
  {
    s := f.lo[f.pp + p.at].(cat := p.cat);
    assert f.lo[f.pp + p.at := s] == Replace(f.lo, f.pp + p.at, 1, s);
  }

  lemma RewrittenBy(st: State, p: Production) returns (s: Scrap)
    requires Firing(st, p) && |st.arena.starts| >= 1 && Rewrite(st, p).Next?
    ensures s.cat == p.cat
    ensures var r := Rewrite(st, p).state;
            r.lo == Replace(st.lo, st.pp + p.at, p.k, s) && r.hi == st.hi && r.pp == Max(st.pp + p.d, 0)
  {
    var pen := Written(st, p);
    s := Scrap(p.cat, pen.init, pen.cur, st.arena.Count());
  }

  lemma FairPrepared(f: State, p: Production)
    requires Firing(f, p) && Fair(f.lo + f.hi, f.pp, p)
    requires Alike(f.lo + f.hi, Prepared(f, p.reserve).lo + Prepared(f, p.reserve).hi)
    ensures var s1 := Prepared(f, p.reserve); Fair(s1.lo + s1.hi, s1.pp, p)
  {
    FairAlike(f.lo + f.hi, Prepared(f, p.reserve).lo + Prepared(f, p.reserve).hi, f.pp, p);
  }

  lemma QuietRewritten(st: State, p: Production, base: nat)
    requires QuietState(st, base) && Firing(st, p) && |st.arena.starts| >= 1 && Rewrite(st, p).Next?
    requires Fair(st.lo + st.hi, st.pp, p)
    ensures QuietState(Rewrite(st, p).state, base)
  {
    var s := RewrittenBy(st, p);
    QuietPut(st.lo, st.hi, st.pp, p, s, base);
  }

  // ---------- what fires is fair ----------

  // Sound productions make a < or > only of one and an insert next to it, an insert only of
  // what may become one, and pass no insert.
  predicate Mild(p: Production, c0: Cat, c1: Cat, c2: Cat, c3: Cat)
    requires p.Match?
  {
    && p.at + p.k <= 4
    && (IsAngleCat(p.cat) ==>
          p.k == 2 && Glued(Nth(c0, c1, c2, c3, p.at), Nth(c0, c1, c2, c3, p.at + 1))
          && (Nth(c0, c1, c2, c3, p.at) == Insert ==> p.at == 0))
    && (Opens(p.cat) ==> Opens(Nth(c0, c1, c2, c3, p.at)))
    && (p.k >= 1 && Closes(p.cat) ==> Closes(Nth(c0, c1, c2, c3, p.at + p.k - 1)))
    && (p.cat == Insert && p.d >= p.at ==> c0 == Insert && p.d == 0)
    && (p.d > 0 ==> p.d == 1 && (p.at == 1 || (p.at == 0 && p.k == 2 && c2 != Insert)))
  }

  lemma SoundMild(p: Production, c0: Cat, c1: Cat, c2: Cat, c3: Cat)
    requires Sound(p, c0, c1, c2, c3) && p.Match?
    ensures Mild(p, c0, c1, c2, c3)
  {
  }

  // The window shows what is there.
  ghost predicate Filled(f: State) { f.pp + 4 <= |f.lo| || f.hi == [] }

  lemma CatThere(f: State, i: nat)
    requires Filled(f) && i < 4 && f.pp + i < |f.lo + f.hi|
    ensures CatAt(f.lo, f.pp + i) == (f.lo + f.hi)[f.pp + i].cat
  {
  }

  // What a production glues cannot be a < or >.
  lemma NotGlued(ss: seq<Scrap>, base: nat, pp: nat, j: nat)
    requires Quiet(ss, base) && Clear(ss, pp) && j + 1 < |ss| && (ss[j].cat == Insert ==> j == pp)
    ensures !Glued(ss[j].cat, ss[j + 1].cat)
  {
    assert !(IsAngleCat(ss[j].cat) && Opens(ss[j + 1].cat));
    if ss[j].cat == Insert { assert j == 0; }
  }

  lemma MildFair(f: State, p: Production, base: nat)
    requires f.pp < |f.lo| && p.Match? && Firing(f, p) && QuietState(f, base) && Filled(f)
    requires Mild(p, CatAt(f.lo, f.pp), CatAt(f.lo, f.pp + 1), CatAt(f.lo, f.pp + 2), CatAt(f.lo, f.pp + 3))
    ensures Fair(f.lo + f.hi, f.pp, p)
  {
    TakenThere(f, p.at, p.k);
    CatThere(f, 0);
    if f.pp + 2 < |f.lo + f.hi| { CatThere(f, 2); }
    if IsAngleCat(p.cat) { NotGlued(f.lo + f.hi, base, f.pp, f.pp + p.at); }
    EndsOf(f.lo + f.hi, f.pp + p.at, p.k);
  }

  // The first and the last of the scraps that a production takes.
  lemma TakenThere(f: State, at: nat, k: nat)
    requires Filled(f) && 1 <= k && at + k <= 4 && f.pp + at + k <= |f.lo|
    ensures var c0, c1 := CatAt(f.lo, f.pp), CatAt(f.lo, f.pp + 1);
            var c2, c3 := CatAt(f.lo, f.pp + 2), CatAt(f.lo, f.pp + 3);
            && Nth(c0, c1, c2, c3, at) == (f.lo + f.hi)[f.pp + at].cat
            && Nth(c0, c1, c2, c3, at + k - 1) == (f.lo + f.hi)[f.pp + at + k - 1].cat
            && (k == 2 ==> Nth(c0, c1, c2, c3, at + 1) == (f.lo + f.hi)[f.pp + at + 1].cat)
  {
    NthIs(f, at);
    NthIs(f, at + k - 1);
    CatThere(f, at);
    CatThere(f, at + k - 1);
  }

  lemma ChosenFair(f: State, table: Table, base: nat)
    requires SoundTable(table) && f.pp < |f.lo| && RealScraps(f.lo) && QuietState(f, base) && Filled(f)
    ensures var p := Chosen(f, table);
            p.Match? ==> Firing(f, p) && Fair(f.lo + f.hi, f.pp, p) && (p.keep ==> p.k == 1)
  {
    ChosenSound(f, table);
    var p := Chosen(f, table);
    if p.Match? {
      SoundMild(p, CatAt(f.lo, f.pp), CatAt(f.lo, f.pp + 1), CatAt(f.lo, f.pp + 2), CatAt(f.lo, f.pp + 3));
      MildFair(f, p, base);
    }
  }

  // Where nothing fires no insert comes next.
  lemma NothingFires(f: State, table: Table, base: nat)
    requires SoundTable(table) && f.pp < |f.lo| && RealScraps(f.lo) && QuietState(f, base) && Filled(f)
    requires Chosen(f, table).NoMatch?
    ensures QuietState(f.(pp := f.pp + 1), base)
  {
    InsertGlued(f, table);
    if f.pp + 1 < |f.lo + f.hi| { CatThere(f, 1); }
    ClearOneMore(f.lo + f.hi, f.pp);
  }

  lemma ClearOneMore(ss: seq<Scrap>, pp: nat)
    requires Clear(ss, pp) && (pp + 1 < |ss| ==> ss[pp + 1].cat != Insert)
    ensures Clear(ss, pp + 1)
  {
  }

  lemma InsertGlued(f: State, table: Table)
    requires SoundTable(table) && f.pp < |f.lo| && RealScraps(f.lo) && Chosen(f, table).NoMatch?
    ensures CatAt(f.lo, f.pp + 1) != Insert
  {
    WindowHere(f);
  }

  lemma QuietStep(st: State, setup: Setup, base: nat)
    requires QuietState(st, base) && Ready(st) && SoundTable(setup.table) && Step(st, setup).Next?
    ensures QuietState(Step(st, setup).state, base)
  {
    FillScraps(st);
    QuietAct(Fill(st), setup, base);
  }

  lemma QuietAct(f: State, setup: Setup, base: nat)
    requires QuietState(f, base) && Ready(f) && Filled(f) && SoundTable(setup.table) && Act(f, setup).Next?
    ensures QuietState(Act(f, setup).state, base)
  {
    ChosenFair(f, setup.table, base);
    var p := Chosen(f, setup.table);
    if p.Match? { QuietApply(f, p, base); } else { NothingFires(f, setup.table, base); }
  }

  // A < or > that is replaced holds its own leaf and nothing else.
  lemma NothingToLose(f: State, table: Table, base: nat)
    requires QuietState(f, base) && SoundTable(table) && RealScraps(f.lo)
    ensures !LosesNext(f, table, base)
  {
    if AngleNext(f, table) {
      ChosenSound(f, table);
      assert (f.lo + f.hi)[f.pp] == f.lo[f.pp] && PlainScrap(f.lo[f.pp], base);
      OwnLeaf(f.arena, base, f.lo[f.pp]);
    }
  }

  lemma OwnLeaf(a: Arena, base: nat, s: Scrap)
    requires s.trans < base
    ensures ScrapKept(a, base, s) == [Leaf(s.trans)]
  {
    assert Flat(a, base, s.trans) == [Leaf(s.trans)];
    assert Kept([Leaf(s.trans)]) == [Leaf(s.trans)];
  }

  lemma {:induction false} LosslessFrom(st: State, setup: Setup, base: nat)
    requires QuietState(st, base) && Ready(st) && SoundTable(setup.table)
    ensures Lossless(st, setup, base)
    decreases Count(st), Ranks(st), Ahead(st)
  {
    match Step(st, setup)
    case Next(s) =>
      StepSmaller(st, setup);
      QuietStep(st, setup, base);
      FillScraps(st);
      NothingToLose(Fill(st), setup.table, base);
      LosslessFrom(s, setup, base);
    case _ =>
  }

  // What a caller can see of the scraps beforehand: no insert or preprocessor line directly
  // after a < or >, and none directly before one if the text begins with such; or else no
  // < and > at all.
  ghost predicate Unmixed(ss: seq<Scrap>) { Apart(ss) || NoAngles(ss) }

  ghost predicate NoAngles(ss: seq<Scrap>) { forall i :: 0 <= i < |ss| ==> !IsAngleCat(ss[i].cat) }

  lemma StartQuiet(a: Arena, ss: seq<Scrap>)
    requires Input(a, ss) && Apart(ss)
    ensures QuietState(Start(a, ss), a.Count())
  {
    assert [] + ss == ss;
  }

  lemma LosslessUnmixed(a: Arena, ss: seq<Scrap>, setup: Setup)
    requires Input(a, ss) && Unmixed(ss) && SoundTable(setup.table)
    ensures Ready(Start(a, ss)) && Lossless(Start(a, ss), setup, a.Count())
  {
    StartGood(a, ss);
    if NoAngles(ss) {
      LosslessWithoutAngles(Start(a, ss), a, ss, setup);
    } else {
      StartQuiet(a, ss);
      LosslessFrom(Start(a, ss), setup, a.Count());
    }
  }

  // The text returned then keeps every scrap of the input, each once and in its place, by
  // itself or, a < or >, by the character that replaces it.
  lemma TranslationInOrder(a: Arena, ss: seq<Scrap>, setup: Setup)
    requires Input(a, ss) && Unmixed(ss) && SoundTable(setup.table)
    ensures Ready(Start(a, ss))
    ensures Translation(a, ss, setup).Some? ==>
              var (b, t) := Translation(a, ss, setup).value;
              var x := Kept(Flat(b, a.Count(), t));
              |x| == |ss| && forall i :: 0 <= i < |ss| ==> StandsFor(x[i], ss[i])
  {
    LosslessUnmixed(a, ss, setup);
    TranslationCorrect(a, ss, setup);
    if Translation(a, ss, setup).Some? {
      var (b, t) := Translation(a, ss, setup).value;
      OneForOne(Kept(Flat(b, a.Count(), t)), ss);
    }
  }

  predicate StandsFor(x: Atom, s: Scrap) {
    match x
    case Leaf(t) => t == s.trans
    case Mark(tok) => (tok == LESS && s.cat == Prelangle) || (tok == GREATER && s.cat == Prerangle)
  }

  lemma OneForOne(x: seq<Atom>, ss: seq<Scrap>)
    requires Covered(x, ss) && |x| == |ss|
    ensures forall i :: 0 <= i < |ss| ==> StandsFor(x[i], ss[i])
  {
    SingleBlocks(x, ss);
    forall i | 0 <= i < |ss|
      ensures StandsFor(x[i], ss[i])
    {
      assert BlockOk(x[i], [ss[i]]);
    }
  }

  // Without < and > it keeps just the scraps' own texts.
  lemma TranslationExact(a: Arena, ss: seq<Scrap>, setup: Setup)
    requires Input(a, ss) && NoAngles(ss) && SoundTable(setup.table)
    ensures Ready(Start(a, ss))
    ensures Translation(a, ss, setup).Some? ==>
              var (b, t) := Translation(a, ss, setup).value;
              var x := Kept(Flat(b, a.Count(), t));
              |x| == |ss| && forall i :: 0 <= i < |ss| ==> x[i] == Leaf(ss[i].trans)
  {
    TranslationInOrder(a, ss, setup);
    if Translation(a, ss, setup).Some? {
      var (b, t) := Translation(a, ss, setup).value;
      var x := Kept(Flat(b, a.Count(), t));
      assert forall i :: 0 <= i < |ss| ==> StandsFor(x[i], ss[i]) && !IsAngleCat(ss[i].cat);
    }
  }
}
