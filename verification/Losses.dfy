// Where leaves are lost: a comment glued to a < goes when the < is replaced.
module Losses {
  import opened Wrappers
  import opened Scraps
  import opened Productions
  import opened Meaning
  import opened Translate
  import opened Conservation
  import opened Steps
  import opened Runs

  // Memory holding four texts, with room for more.
  ghost predicate Roomy(a: Arena) {
    a.Valid() && a.Count() == 4 && a.Free() + 60 <= |a.mem|
  }

  // An operand, a < followed by a comment, an operand.
  function Commented(): seq<Scrap> {
    [Scrap(Exp, Yes, Yes, 0), Scrap(Prelangle, Yes, Yes, 1), Scrap(Insert, No, No, 2), Scrap(Exp, Yes, Yes, 3)]
  }

  lemma CommentedInput(a: Arena)
    requires Roomy(a)
    ensures Input(a, Commented()) && Ready(Start(a, Commented()))
  {
  }

  // What a table does on the windows met.
  ghost predicate Gluing(table: Table) {
    && SoundTable(table)
    && table(Exp, Prelangle, Insert, Exp) == Squash(1, 2, Prelangle, -1, 0)
    && table(Exp, Prelangle, Exp, Zero) == NoMatch
    && table(Prelangle, Exp, Zero, Zero) == Angle(LESS, 84)
    && table(Exp, Binop, Exp, Zero) == Squash(0, 3, Exp, -2, 3)
    && table(Exp, Zero, Zero, Zero) == NoMatch
  }

  lemma CweaveGlues(forceLines: bool)
    ensures Gluing(Cweave(forceLines))
  {
    GluesFirst(Exp, Prelangle, Insert, Exp, forceLines);
    ThenNothing(Exp, Prelangle, Exp, Zero, forceLines);
    ThenAngle(Prelangle, Exp, Zero, Zero, forceLines);
    ThenJoins(Exp, Binop, Exp, Zero, forceLines);
    ThenNothingAlone(Exp, Zero, Zero, Zero, forceLines);
  }

  lemma GluesFirst(c0: Cat, c1: Cat, c2: Cat, c3: Cat, forceLines: bool)
    requires c0 == c3 == Exp && c1 == Prelangle && c2 == Insert
    ensures Cweave(forceLines)(c0, c1, c2, c3) == Squash(1, 2, Prelangle, -1, 0)
  {
  }

  // Where no production for an adjacent insert or argument fires, the first scrap decides.
  lemma NotAdjacent(c0: Cat, c1: Cat, c2: Cat, c3: Cat, forceLines: bool)
    requires c1 != EndArg && c1 != Insert && c2 != Insert && c3 != Insert
    ensures Cweave(forceLines)(c0, c1, c2, c3) == ByFirst(c0, c1, c2, c3, forceLines)
  {
    assert Adjacent(c0, c1, c2, c3) == NoMatch;
  }

  lemma FirstIsExp(c0: Cat, c1: Cat, c2: Cat, c3: Cat, forceLines: bool)
    requires c0 == Exp
    ensures ByFirst(c0, c1, c2, c3, forceLines) == ExpRules(c1, c2, c3)
  {
  }

  lemma NoExpRule(c1: Cat, c2: Cat, c3: Cat)
    requires c1 == Prelangle || c1 == Zero
    ensures ExpRules(c1, c2, c3) == NoMatch
  {
    NoExpClosing(c1, c2, c3);
  }

  lemma NoExpClosing(c1: Cat, c2: Cat, c3: Cat)
    requires c1 == Prelangle || c1 == Zero
    ensures ExpJoining(c1, c2, c3) == NoMatch
  {
    assert ExpClosing(c1, c2, c3) == NoMatch;
  }

  lemma ThenNothing(c0: Cat, c1: Cat, c2: Cat, c3: Cat, forceLines: bool)
    requires c0 == c2 == Exp && c1 == Prelangle && c3 == Zero
    ensures Cweave(forceLines)(c0, c1, c2, c3) == NoMatch
  {
    NotAdjacent(c0, c1, c2, c3, forceLines);
    FirstIsExp(c0, c1, c2, c3, forceLines);
    NoExpRule(c1, c2, c3);
  }

  lemma ThenJoins(c0: Cat, c1: Cat, c2: Cat, c3: Cat, forceLines: bool)
    requires c0 == c2 == Exp && c1 == Binop && c3 == Zero
    ensures Cweave(forceLines)(c0, c1, c2, c3) == Squash(0, 3, Exp, -2, 3)
  {
    NotAdjacent(c0, c1, c2, c3, forceLines);
    FirstIsExp(c0, c1, c2, c3, forceLines);
  }

  lemma ThenNothingAlone(c0: Cat, c1: Cat, c2: Cat, c3: Cat, forceLines: bool)
    requires c0 == Exp && c1 == c2 == c3 == Zero
    ensures Cweave(forceLines)(c0, c1, c2, c3) == NoMatch
  {
    NotAdjacent(c0, c1, c2, c3, forceLines);
    FirstIsExp(c0, c1, c2, c3, forceLines);
    NoExpRule(c1, c2, c3);
  }

  lemma ThenAngle(c0: Cat, c1: Cat, c2: Cat, c3: Cat, forceLines: bool)
    requires c0 == Prelangle && c1 == Exp && c2 == c3 == Zero
    ensures Cweave(forceLines)(c0, c1, c2, c3) == Angle(LESS, 84)
  {
    NotAdjacent(c0, c1, c2, c3, forceLines);
  }

  lemma ChosenAt(f: State, table: Table, c0: Cat, c1: Cat, c2: Cat, c3: Cat)
    requires CatAt(f.lo, f.pp) == c0 && CatAt(f.lo, f.pp + 1) == c1
    requires CatAt(f.lo, f.pp + 2) == c2 && CatAt(f.lo, f.pp + 3) == c3
    ensures Chosen(f, table) == table(c0, c1, c2, c3)
  {
  }

  lemma StepIs(st: State, f: State, setup: Setup, p: Production)
    requires Ready(st) && SoundTable(setup.table) && Fill(st) == f && f.pp < |f.lo|
    requires f.arena.Free() + 21 <= |f.arena.mem| && f.arena.Count() + 11 <= setup.maxTexts
    requires p == Chosen(f, setup.table)
    ensures p.Match? ==> Firing(f, p)
    ensures Step(st, setup) == Obey(f, p)
  {
    FillScraps(st);
    ChosenSound(f, setup.table);
  }

  // A step on a window of these categories.
  lemma StepAt(st: State, f: State, setup: Setup, c0: Cat, c1: Cat, c2: Cat, c3: Cat)
    requires Ready(st) && SoundTable(setup.table) && Fill(st) == f && f.pp < |f.lo|
    requires f.arena.Free() + 21 <= |f.arena.mem| && f.arena.Count() + 11 <= setup.maxTexts
    requires CatAt(f.lo, f.pp) == c0 && CatAt(f.lo, f.pp + 1) == c1
    requires CatAt(f.lo, f.pp + 2) == c2 && CatAt(f.lo, f.pp + 3) == c3
    ensures setup.table(c0, c1, c2, c3).Match? ==> Firing(f, setup.table(c0, c1, c2, c3))
    ensures Step(st, setup) == Obey(f, setup.table(c0, c1, c2, c3))
    ensures AngleNext(f, setup.table) == IsAngle(setup.table(c0, c1, c2, c3))
  {
    ChosenAt(f, setup.table, c0, c1, c2, c3);
    StepIs(st, f, setup, setup.table(c0, c1, c2, c3));
  }

  lemma FillNothing(st: State)
    requires st.hi == []
    ensures Fill(st) == st
  {
    assert st.lo + [] == st.lo;
  }

  function Glue(): seq<Token> { [Text(1), OPEN, CLOSE, DOLLAR, Text(2)] }

  function GluedScraps(): seq<Scrap> {
    [Scrap(Exp, Yes, Yes, 0), Scrap(Prelangle, Yes, No, 4), Scrap(Exp, Yes, Yes, 3)]
  }

  // The comment is glued to the <.
  function Glued(a: Arena, pp: nat): State
    requires |a.starts| >= 1 && a.Free() + 5 <= |a.mem|
  {
    State(a.Append(Glue()), GluedScraps(), [], pp, {})
  }

  lemma GluePen()
    ensures Compose(Row(1, 2), Pen([], Maybe, Maybe), Commented()) == Pen(Glue(), Yes, No)
  {
    var w := Commented();
    assert Row(1, 2) == Sub(1, Sub(2, End));
    var p1 := BigScrap(Pen([], Maybe, Maybe), w[1]);
    assert p1 == Pen([Text(1)], Yes, Yes);
    var p2 := BigScrap(p1, w[2]);
    assert p2 == Pen(Glue(), Yes, No);
  }

  lemma GlueMerge(a: Arena)
    requires Roomy(a)
    ensures Merge(State(a, Commented(), [], 0, {}), 1, 2, Prelangle, Pen(Glue(), Yes, No), 0)
         == Next(Glued(a, 0))
  {
    assert Replace(Commented(), 1, 2, Scrap(Prelangle, Yes, No, 4)) == GluedScraps();
  }

  lemma CommentedAtFirst(a: Arena, f: State)
    requires Roomy(a) && f == State(a, Commented(), [], 0, {})
    ensures Ready(Start(a, Commented())) && Fill(Start(a, Commented())) == f
    ensures AtWindow(f, Exp, Prelangle, Insert, Exp)
  {
    var w := Commented();
    assert [] + w[..4] == w && w[4..] == [];
  }

  lemma GlueStep(a: Arena, table: Table)
    requires Roomy(a) && Gluing(table)
    ensures Ready(Start(a, Commented()))
    ensures !AngleNext(Fill(Start(a, Commented())), table)
    ensures Step(Start(a, Commented()), Setup(100, table)) == Next(Glued(a, 0))
  {
    var p := Squash(1, 2, Prelangle, -1, 0);
    var f := State(a, Commented(), [], 0, {});
    CommentedAtFirst(a, f);
    StepAt(Start(a, Commented()), f, Setup(100, table), Exp, Prelangle, Insert, Exp);
    GlueRewrite(a, f, p);
  }

  lemma GlueRewrite(a: Arena, f: State, p: Production)
    requires Roomy(a) && f == State(a, Commented(), [], 0, {}) && p == Squash(1, 2, Prelangle, -1, 0)
    ensures Rewrite(f, p) == Next(Glued(a, 0))
  {
    assert Commented()[0..] == Commented();
    GluePen();
    GlueMerge(a);
  }

  // A state with all its scraps in play, and memory enough, at a window.
  ghost predicate AtWindow(g: State, c0: Cat, c1: Cat, c2: Cat, c3: Cat) {
    && Ready(g) && g.hi == [] && g.pp < |g.lo|
    && g.arena.Free() + 21 <= |g.arena.mem| && g.arena.Count() + 11 <= 100
    && CatAt(g.lo, g.pp) == c0 && CatAt(g.lo, g.pp + 1) == c1 && CatAt(g.lo, g.pp + 2) == c2
    && CatAt(g.lo, g.pp + 3) == c3
  }

  lemma WindowStep(g: State, table: Table, c0: Cat, c1: Cat, c2: Cat, c3: Cat)
    requires AtWindow(g, c0, c1, c2, c3) && SoundTable(table)
    ensures table(c0, c1, c2, c3).Match? ==> Firing(g, table(c0, c1, c2, c3))
    ensures Fill(g) == g && Step(g, Setup(100, table)) == Obey(g, table(c0, c1, c2, c3))
    ensures AngleNext(g, table) == IsAngle(table(c0, c1, c2, c3))
  {
    FillNothing(g);
    StepAt(g, g, Setup(100, table), c0, c1, c2, c3);
  }

  lemma GluedSizes(a: Arena)
    requires Roomy(a)
    ensures var b := a.Append(Glue());
            |b.starts| == 6 && b.Count() == 5 && b.Free() == a.Free() + 5 && |b.mem| == |a.mem|
  {
  }

  lemma GluedAtFirst(a: Arena)
    requires Roomy(a)
    ensures AtWindow(Glued(a, 0), Exp, Prelangle, Exp, Zero)
  {
    GluedSizes(a);
  }

  lemma GluedAtLess(a: Arena)
    requires Roomy(a)
    ensures AtWindow(Glued(a, 1), Prelangle, Exp, Zero, Zero)
  {
    GluedSizes(a);
  }

  // The cursor passes the first operand.
  lemma PassStep(a: Arena, table: Table)
    requires Roomy(a) && Gluing(table)
    ensures Ready(Glued(a, 0)) && !AngleNext(Fill(Glued(a, 0)), table)
    ensures Step(Glued(a, 0), Setup(100, table)) == Next(Glued(a, 1))
  {
    GluedAtFirst(a);
    WindowStep(Glued(a, 0), table, Exp, Prelangle, Exp, Zero);
  }

  // The < is replaced, and the comment with it.
  lemma LossStep(a: Arena, table: Table)
    requires Roomy(a) && Gluing(table)
    ensures Ready(Glued(a, 1)) && AngleNext(Fill(Glued(a, 1)), table)
    ensures Step(Glued(a, 1), Setup(100, table)) == Next(Compared(a))
  {
    GluedAtLess(a);
    WindowStep(Glued(a, 1), table, Prelangle, Exp, Zero, Zero);
    LossRewrite(a, Glued(a, 1));
  }

  lemma LossRewrite(a: Arena, st: State)
    requires Roomy(a) && st == Glued(a, 1)
    ensures Firing(st, Angle(LESS, 84)) && Obey(st, Angle(LESS, 84)) == Next(Compared(a))
  {
    LessPen(st.lo[1..]);
    assert Replace(GluedScraps(), 1, 1, Scrap(Binop, Yes, Yes, 5)) == ComparedScraps();
  }

  function ComparedScraps(): seq<Scrap> {
    [Scrap(Exp, Yes, Yes, 0), Scrap(Binop, Yes, Yes, 5), Scrap(Exp, Yes, Yes, 3)]
  }

  function Compared(a: Arena): State
    requires |a.starts| >= 1 && a.Free() + 6 <= |a.mem|
  {
    State(a.Append(Glue()).Append([LESS]), ComparedScraps(), [], 0, {})
  }

  lemma LessPen(w: seq<Scrap>)
    ensures Compose(Raw(LESS, End), Pen([], Yes, Yes), w) == Pen([LESS], Yes, Yes)
  {
  }

  // The comparison becomes one operand, and that is the end.
  function Comparison(): seq<Token> { [Text(0), Text(5), Text(3)] }

  function Joined(b: Arena, pp: nat): State
    requires |b.starts| >= 1 && b.Free() + 3 <= |b.mem|
  {
    State(b.Append(Comparison()), [Scrap(Exp, Yes, Yes, 6)], [], pp, {})
  }

  lemma JoinPen()
    ensures Compose(Row(0, 3), Pen([], Maybe, Maybe), ComparedScraps()) == Pen(Comparison(), Yes, Yes)
  {
    var w := ComparedScraps();
    assert Row(0, 3) == Sub(0, Sub(1, Sub(2, End)));
    var p1 := BigScrap(Pen([], Maybe, Maybe), w[0]);
    assert p1 == Pen([Text(0)], Yes, Yes);
    var p2 := BigScrap(p1, w[1]);
    assert p2 == Pen([Text(0), Text(5)], Yes, Yes);
    var p3 := BigScrap(p2, w[2]);
    assert p3 == Pen(Comparison(), Yes, Yes);
  }

  // A memory with six texts and room for more.
  ghost predicate Enough(b: Arena) { |b.starts| == 7 && b.Free() + 40 <= |b.mem| }

  lemma ComparedAtFirst(b: Arena, st: State)
    requires Enough(b) && st == State(b, ComparedScraps(), [], 0, {})
    ensures AtWindow(st, Exp, Binop, Exp, Zero)
  {
  }

  lemma JoinRewrite(b: Arena, st: State)
    requires Enough(b) && st == State(b, ComparedScraps(), [], 0, {})
    ensures Firing(st, Squash(0, 3, Exp, -2, 3)) && Obey(st, Squash(0, 3, Exp, -2, 3)) == Next(Joined(b, 0))
  {
    assert ComparedScraps()[0..] == ComparedScraps();
    JoinPen();
    assert Replace(ComparedScraps(), 0, 3, Scrap(Exp, Yes, Yes, 6)) == [Scrap(Exp, Yes, Yes, 6)];
  }

  lemma JoinStep(b: Arena, st: State, table: Table)
    requires Enough(b) && Gluing(table) && st == State(b, ComparedScraps(), [], 0, {})
    ensures Ready(st) && Step(st, Setup(100, table)) == Next(Joined(b, 0))
  {
    ComparedAtFirst(b, st);
    WindowStep(st, table, Exp, Binop, Exp, Zero);
    JoinRewrite(b, st);
  }

  lemma JoinedAtFirst(b: Arena)
    requires Enough(b)
    ensures AtWindow(Joined(b, 0), Exp, Zero, Zero, Zero)
  {
  }

  // At the end of the scraps the run is over.
  lemma EndStep(g: State, setup: Setup)
    requires Ready(g) && SoundTable(setup.table) && g.hi == [] && g.pp >= |g.lo|
    requires g.arena.Free() + 21 <= |g.arena.mem| && g.arena.Count() + 11 <= setup.maxTexts
    ensures Fill(g) == g && Step(g, setup) == Finished
  {
    FillNothing(g);
  }

  lemma JoinedSizes(b: Arena)
    requires Enough(b)
    ensures var g := Joined(b, 1);
            && Ready(g) && g.hi == [] && g.pp >= |g.lo|
            && g.arena.Free() + 21 <= |g.arena.mem| && g.arena.Count() + 11 <= 100
  {
  }

  lemma LastSteps(b: Arena, table: Table)
    requires Enough(b) && Gluing(table)
    ensures Ready(Joined(b, 0)) && Step(Joined(b, 0), Setup(100, table)) == Next(Joined(b, 1))
    ensures Ready(Joined(b, 1)) && Step(Joined(b, 1), Setup(100, table)) == Finished
  {
    JoinedAtFirst(b);
    WindowStep(Joined(b, 0), table, Exp, Zero, Zero, Zero);
    JoinedSizes(b);
    EndStep(Joined(b, 1), Setup(100, table));
  }

  lemma RunOn(st: State, s: State, setup: Setup)
    requires Ready(st) && Ready(s) && SoundTable(setup.table) && Step(st, setup) == Next(s)
    ensures Run(st, setup) == Run(s, setup)
  {
  }

  lemma RunEnds(st: State, setup: Setup)
    requires Ready(st) && SoundTable(setup.table) && Step(st, setup) == Finished
    ensures Run(st, setup) == Some(Fill(st))
  {
  }

  lemma ClosedJoined(b: Arena)
    requires Enough(b)
    ensures Closed(Joined(b, 1)).Some?
  {
    var s := Scrap(Exp, Yes, Yes, 6);
    assert Closing([s], true) == Wrapped(s, true) + Closing([s][1..], false);
    assert Closing([s][1..], false) == [];
  }

  // From where the comment is gone to the text returned.
  lemma TextReturned(b: Arena, st: State, table: Table)
    requires Enough(b) && Gluing(table) && st == State(b, ComparedScraps(), [], 0, {})
    ensures Ready(st) && Run(st, Setup(100, table)) == Some(Joined(b, 1)) && Closed(Joined(b, 1)).Some?
  {
    JoinStep(b, st, table);
    LastSteps(b, table);
    FillNothing(Joined(b, 1));
    RunEnds(Joined(b, 1), Setup(100, table));
    RunOn(Joined(b, 0), Joined(b, 1), Setup(100, table));
    RunOn(st, Joined(b, 0), Setup(100, table));
    ClosedJoined(b);
  }

  // The glued scrap holds two leaves.
  lemma GluedKept(a: Arena, table: Table)
    requires Roomy(a) && Gluing(table)
    ensures |ScrapKept(Glued(a, 1).arena, 4, Scrap(Prelangle, Yes, No, 4))| == 2
  {
    var w := Commented();
    CommentedInput(a);
    StartCovered(a, w);
    GlueStep(a, table);
    KeptAfter(Start(a, w), Glued(a, 0), a, w, Setup(100, table));
    assert GluedScraps() + [] == GluedScraps();
    KeptOfThree(Glued(a, 1).arena, 4, GluedScraps());
  }

  lemma KeptAfter(st: State, next: State, a: Arena, ss: seq<Scrap>, setup: Setup)
    requires Input(a, ss) && st == Start(a, ss) && SoundTable(setup.table)
    requires Ready(st) && Step(st, setup) == Next(next) && !AngleNext(Fill(st), setup.table)
    ensures Leaves(next, a.Count()) == Leaves(st, a.Count())
  {
    StartGood(a, ss);
    StepGood(st, KnownOf(a, ss), setup);
    FillGood(st, KnownOf(a, ss));
  }

  lemma KeptOfThree(a: Arena, base: nat, ss: seq<Scrap>)
    requires |ss| == 3 && ss[0].trans < base && ss[2].trans < base
    ensures |ScrapsKept(a, base, ss)| == 2 + |ScrapKept(a, base, ss[1])|
  {
    CoverStart(a, base, [ss[0]]);
    CoverStart(a, base, [ss[2]]);
    ScrapsKeptOne(a, base, ss[1]);
    assert ss == [ss[0]] + ([ss[1]] + [ss[2]]);
    ScrapsKeptAppend(a, base, [ss[0]], [ss[1]] + [ss[2]]);
    ScrapsKeptAppend(a, base, [ss[1]], [ss[2]]);
  }

  lemma ComparedRoom(a: Arena)
    requires Roomy(a)
    ensures Enough(Compared(a).arena)
  {
  }

  lemma NotLossless(a: Arena, table: Table)
    requires Roomy(a) && Gluing(table)
    ensures Ready(Start(a, Commented())) && !Lossless(Start(a, Commented()), Setup(100, table), 4)
  {
    GlueStep(a, table);
    PassStep(a, table);
    LossStep(a, table);
    FillNothing(Glued(a, 1));
    GluedKept(a, table);
    LossyNow(Glued(a, 1), Setup(100, table), 4);
    LossyLater(Glued(a, 0), Glued(a, 1), Setup(100, table), 4);
    LossyLater(Start(a, Commented()), Glued(a, 0), Setup(100, table), 4);
  }

  lemma SomethingReturned(a: Arena, table: Table)
    requires Roomy(a) && Gluing(table)
    ensures Ready(Start(a, Commented())) && Translation(a, Commented(), Setup(100, table)).Some?
  {
    GlueStep(a, table);
    PassStep(a, table);
    LossStep(a, table);
    ComparedRoom(a);
    TextReturned(Compared(a).arena, Compared(a), table);
    RunOn(Glued(a, 1), Compared(a), Setup(100, table));
    RunOn(Glued(a, 0), Glued(a, 1), Setup(100, table));
    RunOn(Start(a, Commented()), Glued(a, 0), Setup(100, table));
  }

  // Whatever the four texts are, the comment glued to the < is lost with it: a text is
  // returned, and it keeps fewer leaves than there were scraps.
  lemma CommentAfterLessIsLost(a: Arena, forceLines: bool)
    requires Roomy(a)
    ensures Input(a, Commented()) && Ready(Start(a, Commented()))
    ensures !Lossless(Start(a, Commented()), Setup(100, Cweave(forceLines)), 4)
    ensures Translation(a, Commented(), Setup(100, Cweave(forceLines))).Some?
    ensures var (b, t) := Translation(a, Commented(), Setup(100, Cweave(forceLines))).value;
            |Kept(Flat(b, 4, t))| < |Commented()|
  {
    CweaveGlues(forceLines);
    CommentedInput(a);
    NotLossless(a, Cweave(forceLines));
    SomethingReturned(a, Cweave(forceLines));
    TranslationCorrect(a, Commented(), Setup(100, Cweave(forceLines)));
  }

  lemma LossyNow(st: State, setup: Setup, base: nat)
    requires Ready(st) && SoundTable(setup.table) && Step(st, setup).Next?
    requires LosesNext(Fill(st), setup.table, base)
    ensures !Lossless(st, setup, base)
  {
  }

  lemma LossyLater(st: State, s: State, setup: Setup, base: nat)
    requires Ready(st) && Ready(s) && SoundTable(setup.table) && Step(st, setup) == Next(s)
    requires !Lossless(s, setup, base)
    ensures !Lossless(st, setup, base)
  {
  }

  // There is such a memory.
  lemma SomeRoomy()
    ensures Roomy(Arena(seq(100, _ => SPACE), [0, 0, 0, 0, 0]))
  {
    var a := Arena(seq(100, _ => SPACE), [0, 0, 0, 0, 0]);
    forall t | 0 <= t < a.Count()
      ensures a.Placed(t)
    {
      assert a.TextAt(t) == [];
    }
  }
}
