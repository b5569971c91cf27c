// One step of the formatter: it keeps the state good and accounts for the leaves.
module Steps {
  import opened Wrappers
  import opened Scraps
  import opened Productions
  import opened Meaning
  import opened Translate
  import opened Conservation

  // ---------- one step ----------

  // The next production replaces a scrap's text by a bare < or >.
  predicate AngleNext(f: State, table: Table) {
    f.pp < |f.lo| && IsAngle(Chosen(f, table))
  }

  // ... although that text holds more than its own leaf.
  predicate LosesNext(f: State, table: Table, base: nat) {
    AngleNext(f, table) && |ScrapKept(f.arena, base, f.lo[f.pp])| != 1
  }

  // The leaves before and after an angle step differ in one place: the leaves of the
  // scrap at the cursor become one stand-in.
  ghost predicate AngleLeaves(before: seq<Atom>, after: seq<Atom>, f: State, base: nat)
    requires f.pp < |f.lo|
  {
    var x := ScrapsKept(f.arena, base, f.lo[..f.pp]);
    var z := ScrapsKept(f.arena, base, f.lo[f.pp + 1..] + f.hi);
    && before == x + ScrapKept(f.arena, base, f.lo[f.pp]) + z
    && after == x + [Mark(if f.lo[f.pp].cat == Prelangle then LESS else GREATER)] + z
  }

  // What a step from the filled window f does to the leaves.
  ghost predicate Accounts(f: State, next: State, base: nat, table: Table) {
    if AngleNext(f, table) then AngleLeaves(Leaves(f, base), Leaves(next, base), f, base)
    else Leaves(next, base) == Leaves(f, base)
  }

  // All scraps on either side of the gap are good.
  ghost predicate AllGood(st: State, k: Known) {
    GoodScraps(st.arena, k, st.lo + st.hi)
  }

  ghost predicate Ordinary(st: State, p: Production) {
    && Firing(st, p) && !p.keep && p.seed == Maybe
    && TakesInOrder(p.layout, p.at, p.at + p.k)
    && (IsAngleCat(p.cat) ==>
          p.k == 2 && p.reserve == None
          && (st.lo[st.pp + p.at].cat == p.cat || st.lo[st.pp + p.at + 1].cat == p.cat))
  }

  ghost predicate Angled(st: State, p: Production) {
    && Firing(st, p) && IsAngleCat(st.lo[st.pp].cat)
    && p == (if st.lo[st.pp].cat == Prelangle then Angle(LESS, 84) else Angle(GREATER, 85))
  }

  ghost predicate Keeping(st: State, p: Production) {
    Firing(st, p) && p.keep && !IsAngleCat(p.cat) && !IsAngle(p)
  }

  // What a sound table chooses is one of the three.
  lemma Classify(f: State, p: Production)
    requires f.pp < |f.lo| && Firing(f, p)
    requires Sound(p, CatAt(f.lo, f.pp), CatAt(f.lo, f.pp + 1), CatAt(f.lo, f.pp + 2), CatAt(f.lo, f.pp + 3))
    ensures Classified(f, p)
  {
    SoundKinds(p, CatAt(f.lo, f.pp), CatAt(f.lo, f.pp + 1), CatAt(f.lo, f.pp + 2), CatAt(f.lo, f.pp + 3));
    if IsAngleCat(p.cat) {
      NthIs(f, p.at);
      NthIs(f, 1);
    }
  }

  lemma SoundKinds(p: Production, c0: Cat, c1: Cat, c2: Cat, c3: Cat)
    requires p.Match? && Sound(p, c0, c1, c2, c3)
    ensures IsAngleCat(p.cat) ==>
              p.k == 2 && p.reserve == None && p.at < 4
              && p.cat == (if p.number == 83 && p.at == 0 then c1 else Nth(c0, c1, c2, c3, p.at))
    ensures if IsAngle(p) then IsAngleCat(c0) && p == (if c0 == Prelangle then Angle(LESS, 84) else Angle(GREATER, 85))
            else p.seed == Maybe && if p.keep then !IsAngleCat(p.cat) else TakesInOrder(p.layout, p.at, p.at + p.k)
  {
  }

  ghost predicate Classified(f: State, p: Production) {
    if IsAngle(p) then Angled(f, p) else if p.Match? && p.keep then Keeping(f, p) else Ordinary(f, p)
  }

  // ---- a production that only changes a category ----

  lemma RecatGood(a: Arena, k: Known, ss: seq<Scrap>, j: nat, c: Cat)
    requires GoodScraps(a, k, ss) && j < |ss| && c != Zero && !IsAngleCat(c)
    ensures var rr := ss[j := ss[j].(cat := c)];
            GoodScraps(a, k, rr) && ScrapsKept(a, k.base, rr) == ScrapsKept(a, k.base, ss)
  {
    var rr := ss[j := ss[j].(cat := c)];
    assert forall i :: 0 <= i < |ss| ==> GoodScrap(a, k, ss[i]);
    FlatScrapsFrame(a, a, k.base, ss, rr);
  }

  lemma UpdateConcat<T>(x: seq<T>, y: seq<T>, j: nat, t: T)
    requires j < |x|
    ensures x[j := t] + y == (x + y)[j := t]
  {
  }

  lemma KeepGood(st: State, k: Known, p: Production)
    requires AllGood(st, k) && Keeping(st, p) && |st.arena.starts| >= 1
    ensures var o := Apply(st, p);
            o.Next? && AllGood(o.state, k) && Leaves(o.state, k.base) == Leaves(st, k.base)
  {
    var j := st.pp + p.at;
    RecatGood(st.arena, k, st.lo + st.hi, j, p.cat);
    UpdateConcat(st.lo, st.hi, j, st.lo[j].(cat := p.cat));
  }

  // ---- a scrap replaced by a bare < or > ----

  // A pen whose text may take the place of scraps of which cat is made.
  ghost predicate Sufficient(a: Arena, k: Known, cat: Cat, pen: Pen) {
    && PenOk(a, k.base, k.modes, pen) && |PenKept(a, k.base, pen)| >= 1
    && (IsAngleCat(cat) ==> Holds(PenKept(a, k.base, pen), k, cat))
  }

  lemma AngleGood(st: State, k: Known, p: Production)
    requires Shape(st.arena, k.base) && AllGood(st, k) && Angled(st, p) && Apply(st, p).Next?
    ensures var s := Apply(st, p).state;
            AllGood(s, k) && AngleLeaves(Leaves(st, k.base), Leaves(s, k.base), st, k.base)
  {
    AngleWritten(st, k, p);
    MergeGood(st.arena, k, st.lo, st.hi, st.pp, 1, Binop, Pen([p.layout.tok], Yes, Yes));
    SplitAtCursor(st, k.base);
  }

  lemma AngleWritten(st: State, k: Known, p: Production)
    requires Angled(st, p)
    ensures p == Angle(p.layout.tok, p.number)
    ensures p.layout.tok == (if st.lo[st.pp].cat == Prelangle then LESS else GREATER)
    ensures Written(st, p) == Pen([p.layout.tok], Yes, Yes)
    ensures Sufficient(st.arena, k, Binop, Written(st, p))
    ensures PenKept(st.arena, k.base, Written(st, p)) == [Mark(p.layout.tok)]
  {
    var tok := p.layout.tok;
    assert Compose(p.layout, Pen([], Yes, Yes), st.lo[st.pp..]) == Pen([tok], Yes, Yes);
    AngleOk(st.arena, k.base, k.modes, tok);
    assert Kept([Mark(tok)]) == [Mark(tok)];
  }

  lemma SplitAtCursor(st: State, base: nat)
    requires st.pp < |st.lo|
    ensures Leaves(st, base)
         == ScrapsKept(st.arena, base, st.lo[..st.pp]) + ScrapKept(st.arena, base, st.lo[st.pp])
          + ScrapsKept(st.arena, base, st.lo[st.pp + 1..] + st.hi)
  {
    SplitLeaves(st.arena, base, st.lo, st.hi, st.pp, 1);
    assert st.lo[st.pp..st.pp + 1] == [st.lo[st.pp]];
    ScrapsKeptOne(st.arena, base, st.lo[st.pp]);
  }

  // ---- scraps composed into one ----

  lemma {:induction false} KeptLength(a: Arena, k: Known, ss: seq<Scrap>)
    requires GoodScraps(a, k, ss)
    ensures |ScrapsKept(a, k.base, ss)| >= |ss|
  {
    if ss != [] {
      ScrapsKeptCons(a, k.base, ss, 0, |ss|);
      assert ss[0..|ss|] == ss && ss[1..|ss|] == ss[1..];
      KeptLength(a, k, ss[1..]);
    }
  }

  // The leaf a < or > scrap keeps is kept by any run of scraps containing it.
  lemma {:induction false} HoldsIn(a: Arena, k: Known, ss: seq<Scrap>, i: nat)
    requires GoodScraps(a, k, ss) && i < |ss| && IsAngleCat(ss[i].cat)
    ensures Holds(ScrapsKept(a, k.base, ss), k, ss[i].cat)
  {
    assert GoodScrap(a, k, ss[i]);
    ScrapsKeptCons(a, k.base, ss, 0, |ss|);
    assert ss[0..|ss|] == ss && ss[1..|ss|] == ss[1..];
    var x, y := ScrapKept(a, k.base, ss[0]), ScrapsKept(a, k.base, ss[1..]);
    if i > 0 { HoldsIn(a, k, ss[1..], i - 1); }
    HoldsBoth(x, y, k, ss[i].cat);
  }

  lemma HoldsBoth(x: seq<Atom>, y: seq<Atom>, k: Known, c: Cat)
    requires Holds(x, k, c) || Holds(y, k, c)
    ensures Holds(x + y, k, c)
  {
    if Holds(x, k, c) {
      var q :| 0 <= q < |x| && x[q].Leaf? && x[q].t in k.cats && k.cats[x[q].t] == c;
      assert (x + y)[q] == x[q];
    } else {
      var q :| 0 <= q < |y| && y[q].Leaf? && y[q].t in k.cats && k.cats[y[q].t] == c;
      assert (x + y)[|x| + q] == y[q];
    }
  }

  lemma SliceOfSuffix<T>(s: seq<T>, a: nat, b: nat, c: nat)
    requires b <= c && a + c <= |s|
    ensures s[a..][b..c] == s[a + b..a + c]
  {
  }

  // The text an ordinary production composes out of the window.
  lemma PenGood(st: State, k: Known, p: Production)
    requires AllGood(st, k) && Ordinary(st, p)
    ensures PenOk(st.arena, k.base, k.modes, Written(st, p))
    ensures PenKept(st.arena, k.base, Written(st, p))
         == ScrapsKept(st.arena, k.base, st.lo[st.pp + p.at..st.pp + p.at + p.k])
    ensures |PenKept(st.arena, k.base, Written(st, p))| >= p.k
  {
    var lo, pp, pen := st.lo, st.pp, Written(st, p);
    assert pen == Compose(p.layout, Pen([], Maybe, Maybe), lo[pp..]);
    GoodReal(st.arena, k, lo, st.hi);
    ComposedHere(st.arena, k, lo, pp, p.layout, p.at, p.k, pen);
  }

  lemma ComposedHere(a: Arena, k: Known, lo: seq<Scrap>, pp: nat, l: Layout, at: nat, n: nat, pen: Pen)
    requires GoodScraps(a, k, lo) && pp + at + n <= |lo| && TakesInOrder(l, at, at + n)
    requires pen == Compose(l, Pen([], Maybe, Maybe), lo[pp..])
    ensures PenOk(a, k.base, k.modes, pen)
    ensures PenKept(a, k.base, pen) == ScrapsKept(a, k.base, lo[pp + at..pp + at + n])
    ensures |PenKept(a, k.base, pen)| >= n
  {
    WindowGood(a, k, lo, pp, at, n);
    ComposedAnew(a, k.base, k.modes, l, lo[pp..], at, at + n);
  }

  lemma WindowGood(a: Arena, k: Known, lo: seq<Scrap>, pp: nat, at: nat, n: nat)
    requires GoodScraps(a, k, lo) && pp + at + n <= |lo|
    ensures AllRead(a, k.base, k.modes, lo[pp..])
    ensures lo[pp..][at..at + n] == lo[pp + at..pp + at + n]
    ensures |ScrapsKept(a, k.base, lo[pp + at..pp + at + n])| >= n
  {
    SliceOfSuffix(lo, pp, at, at + n);
    KeptLength(a, k, lo[pp + at..pp + at + n]);
  }

  lemma ComposedAnew(a: Arena, base: nat, modes: map<nat, Math>, l: Layout, w: seq<Scrap>, i: nat, j: nat)
    requires AllRead(a, base, modes, w) && TakesInOrder(l, i, j) && i <= j <= |w|
    ensures var q := Compose(l, Pen([], Maybe, Maybe), w);
            PenOk(a, base, modes, q) && PenKept(a, base, q) == ScrapsKept(a, base, w[i..j])
  {
    var p0 := Pen([], Maybe, Maybe);
    ComposeOk(a, base, modes, l, p0, w, i, j);
    assert PenKept(a, base, p0) == [];
  }

  lemma PenHolds(st: State, k: Known, p: Production)
    requires AllGood(st, k) && Ordinary(st, p) && IsAngleCat(p.cat)
    ensures Holds(PenKept(st.arena, k.base, Written(st, p)), k, p.cat)
  {
    PenGood(st, k, p);
    var taken := st.lo[st.pp + p.at..st.pp + p.at + p.k];
    GoodReal(st.arena, k, st.lo, st.hi);
    HoldsIn(st.arena, k, taken, if taken[0].cat == p.cat then 0 else 1);
  }

  // What an ordinary production writes may take the place of the scraps it takes.
  lemma PenSufficient(st: State, k: Known, p: Production)
    requires AllGood(st, k) && Ordinary(st, p)
    ensures Sufficient(st.arena, k, p.cat, Written(st, p))
    ensures PenKept(st.arena, k.base, Written(st, p))
         == ScrapsKept(st.arena, k.base, st.lo[st.pp + p.at..st.pp + p.at + p.k])
  {
    PenGood(st, k, p);
    if IsAngleCat(p.cat) { PenHolds(st, k, p); }
  }

  lemma MergeKeeps(st: State, k: Known, j: nat, n: nat, cat: Cat, pen: Pen, pp: nat)
    requires Shape(st.arena, k.base) && AllGood(st, k) && j + n <= |st.lo| && cat != Zero
    requires Sufficient(st.arena, k, cat, pen)
    requires PenKept(st.arena, k.base, pen) == ScrapsKept(st.arena, k.base, st.lo[j..j + n])
    requires Merge(st, j, n, cat, pen, pp).Next?
    ensures var s := Merge(st, j, n, cat, pen, pp).state;
            AllGood(s, k) && Leaves(s, k.base) == Leaves(st, k.base)
  {
    SplitLeaves(st.arena, k.base, st.lo, st.hi, j, n);
    MergeGood(st.arena, k, st.lo, st.hi, j, n, cat, pen);
  }

  lemma ComposeGood(st: State, k: Known, p: Production)
    requires Shape(st.arena, k.base) && AllGood(st, k) && Ordinary(st, p)
    requires Rewrite(st, p).Next?
    ensures var s := Rewrite(st, p).state;
            AllGood(s, k) && Leaves(s, k.base) == Leaves(st, k.base)
  {
    PenSufficient(st, k, p);
    MergeKeeps(st, k, st.pp + p.at, p.k, p.cat, Written(st, p), Max(st.pp + p.d, 0));
  }

  lemma ReserveGood(st: State, p: nat, k: Known)
    requires Shape(st.arena, k.base) && AllGood(st, k) && p < |st.lo|
    ensures var s := MakeReserved(st, p);
            && Shape(s.arena, k.base) && AllGood(s, k) && Leaves(s, k.base) == Leaves(st, k.base)
            && |s.lo| == |st.lo| && s.pp == st.pp
  {
    var s := MakeReserved(st, p);
    MakeReservedOk(st, p, k.base);
    GoodFrame(st.arena, s.arena, k, st.lo + st.hi, s.lo + s.hi);
  }

  lemma ReserveOrdinary(st: State, k: Known, p: Production)
    requires Shape(st.arena, k.base) && AllGood(st, k) && Ordinary(st, p) && p.reserve.Some?
    ensures var s := MakeReserved(st, st.pp + p.reserve.value);
            && Shape(s.arena, k.base) && AllGood(s, k) && Leaves(s, k.base) == Leaves(st, k.base)
            && Ordinary(s, p) && s.pp == st.pp
  {
    ReserveGood(st, st.pp + p.reserve.value, k);
  }

  lemma ReservingGood(st: State, k: Known, p: Production)
    requires Shape(st.arena, k.base) && AllGood(st, k) && Ordinary(st, p) && p.reserve.Some?
    requires Apply(st, p).Next?
    ensures var s := Apply(st, p).state;
            AllGood(s, k) && Leaves(s, k.base) == Leaves(st, k.base)
  {
    ReserveOrdinary(st, k, p);
    ComposeGood(MakeReserved(st, st.pp + p.reserve.value), k, p);
  }

  // ---- any step ----

  // A state the formatter can be in: a valid arena, good scraps, the cursor in range.
  ghost predicate Good(st: State, k: Known) {
    Shape(st.arena, k.base) && st.pp <= |st.lo| && AllGood(st, k)
  }

  lemma ApplyGood(f: State, k: Known, p: Production)
    requires Shape(f.arena, k.base) && AllGood(f, k) && Classified(f, p) && Apply(f, p).Next?
    ensures var s := Apply(f, p).state;
            && AllGood(s, k)
            && (if IsAngle(p) then AngleLeaves(Leaves(f, k.base), Leaves(s, k.base), f, k.base)
                else Leaves(s, k.base) == Leaves(f, k.base))
  {
    if IsAngle(p) { AngleGood(f, k, p); }
    else if p.keep { KeepGood(f, k, p); }
    else if p.reserve.Some? { ReservingGood(f, k, p); }
    else { ComposeGood(f, k, p); }
  }

  lemma ApplyShape(f: State, k: Known, p: Production)
    requires Shape(f.arena, k.base) && AllGood(f, k) && Classified(f, p) && Apply(f, p).Next?
    ensures var s := Apply(f, p).state; Shape(s.arena, k.base) && s.pp <= |s.lo|
  {
    if IsAngle(p) {
      assert Compose(p.layout, Pen([], Yes, Yes), f.lo[f.pp..]) == Pen([p.layout.tok], Yes, Yes);
      AppendShape(f.arena, k.base, [p.layout.tok]);
    } else if !p.keep {
      if p.reserve.Some? { ReserveOrdinary(f, k, p); }
      var s1 := if p.reserve.Some? then MakeReserved(f, f.pp + p.reserve.value) else f;
      PenGood(s1, k, p);
      AppendShape(s1.arena, k.base, Written(s1, p).out);
    }
  }

  lemma FillGood(st: State, k: Known)
    requires Good(st, k)
    ensures Good(Fill(st), k) && Leaves(Fill(st), k.base) == Leaves(st, k.base)
    ensures RealScraps(st.lo) && RealScraps(st.hi) && RealScraps(Fill(st).lo)
  {
    FillScraps(st);
    GoodReal(st.arena, k, st.lo, st.hi);
    GoodReal(st.arena, k, Fill(st).lo, Fill(st).hi);
  }

  lemma TurnGood(f: State, k: Known, table: Table)
    requires Good(f, k) && SoundTable(table) && f.pp < |f.lo| && RealScraps(f.lo)
    requires Chosen(f, table).Match?
    ensures var p := Chosen(f, table);
            Firing(f, p) &&
            (Apply(f, p).Next? ==>
              var s := Apply(f, p).state;
              Good(s, k) && Accounts(f, s, k.base, table))
  {
    var p := Chosen(f, table);
    ChosenSound(f, table);
    Classify(f, p);
    if Apply(f, p).Next? {
      ApplyGood(f, k, p);
      ApplyShape(f, k, p);
    }
  }

  // Every step keeps the state good: all scraps balanced, every text referring only to
  // earlier ones.  It keeps the leaves, except that an angle step replaces the leaves
  // of one scrap by a stand-in.
  lemma StepGood(st: State, k: Known, setup: Setup)
    requires Good(st, k) && SoundTable(setup.table)
    ensures RealScraps(st.lo) && RealScraps(st.hi)
    ensures Step(st, setup).Next? ==>
              Good(Step(st, setup).state, k) && Accounts(Fill(st), Step(st, setup).state, k.base, setup.table)
  {
    FillGood(st, k);
    var f := Fill(st);
    if f.pp < |f.lo| && Chosen(f, setup.table).Match? {
      TurnGood(f, k, setup.table);
    }
  }
}
