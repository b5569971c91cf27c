// One run of the bottom-up formatter over a scrap sequence, as a transition system.
// The scraps on the near side of the gap are lo, those beyond it hi, the cursor pp.
module Translate {
  import opened Wrappers
  import opened Scraps
  import opened Productions

  // The text being composed: tokens so far, math mode at its start and now.
  datatype Pen = Pen(out: seq<Token>, init: Math, cur: Math)

  // Make sure the pen is in mode m, inserting a $ if it is in the other one.
  function Enter(p: Pen, m: Math): Pen
    requires m != Maybe
  {
    if p.cur == Maybe then Pen(p.out, m, m)
    else if p.cur == m then p
    else Pen(p.out + Toggle(m), p.init, m)
  }

  // Leave math mode by {}$, enter it by ${}.
  function Toggle(m: Math): seq<Token> {
    if m == No then [OPEN, CLOSE, DOLLAR] else [DOLLAR, OPEN, CLOSE]
  }

  function ModeOf(t: Token): Math
    requires t.Ch?
  {
    if t == SPACE || 136 <= t.code <= 144 then No else Yes
  }

  function Bare(p: Pen, t: Token): Pen { p.(out := p.out + [t]) }

  function BigTok(p: Pen, t: Token): Pen
    requires t.Ch?
  {
    Bare(Enter(p, ModeOf(t)), t)
  }

  function BigScrap(p: Pen, s: Scrap): Pen {
    if s.init == Maybe then Bare(p, Text(s.trans))
    else Bare(Enter(p, s.init).(cur := s.fin), Text(s.trans))
  }

  // Append everything a layout asks for; w is the window.
  function Compose(l: Layout, p: Pen, w: seq<Scrap>): Pen {
    match l
    case End => p
    case Sub(i, r) => if i < |w| then Compose(r, BigScrap(p, w[i]), w) else p
    case Big(t, r) => if t.Ch? then Compose(r, BigTok(p, t), w) else p
    case Raw(t, r) => Compose(r, Bare(p, t), w)
  }

  // ---------- identifiers made into reserved words ----------

  // Where the first identifier token of text t is, looking into earlier texts.  In a
  // valid arena every reference is to an earlier text, so the guards on u never fail.
  function FirstIdent(a: Arena, t: nat): (r: Option<nat>)
    ensures r.Some? ==> r.value < |a.mem| && IsName(a.mem[r.value])
    decreases t, |a.mem| + 1
  {
    if t < a.Count() then FirstIdentFrom(a, t, a.starts[t]) else None
  }

  predicate IsName(t: Token) { t.Id? || t.Res? }

  // The search from position j of text t on.
  function FirstIdentFrom(a: Arena, t: nat, j: nat): (r: Option<nat>)
    ensures r.Some? ==> r.value < |a.mem| && IsName(a.mem[r.value])
    decreases t, if j <= |a.mem| then |a.mem| - j else 0
  {
    if t >= a.Count() || j >= a.starts[t + 1] || j >= |a.mem| then None
    else
      match a.mem[j]
      case Id(_) => Some(j)
      case Res(_) => Some(j)
      case Text(u) =>
        var r := if u < t then FirstIdent(a, u) else None;
        if r.Some? then r else FirstIdentFrom(a, t, j + 1)
      case Inner(u) =>
        var r := if u < t then FirstIdent(a, u) else None;
        if r.Some? then r else FirstIdentFrom(a, t, j + 1)
      case Ch(_) => if a.mem[j] == INSERTED then None else FirstIdentFrom(a, t, j + 1)
      case Section(_) => FirstIdentFrom(a, t, j + 1)
  }

  // Scan scraps ss from the left: an exp whose first token is tok becomes raw_int and that
  // token becomes reserved.  An empty text shows the token that follows it in memory.
  function ReserveScan(mem: seq<Token>, starts: seq<nat>, tok: Token, ss: seq<Scrap>): (r: (seq<Token>, seq<Scrap>))
    requires IsName(tok)
    ensures |r.0| == |mem| && |r.1| == |ss|
    decreases |ss|
  {
    if ss == [] then (mem, [])
    else
      var n := |ss| - 1;
      var (m, done) := ReserveScan(mem, starts, tok, ss[..n]);
      if Shows(m, starts, tok, ss[n]) then
        (m[starts[ss[n].trans] := Res(tok.name)], done + [ss[n].(cat := RawInt)])
      else (m, done + [ss[n]])
  }

  // Scrap s is an exp whose text begins at an occurrence of tok.
  predicate Shows(mem: seq<Token>, starts: seq<nat>, tok: Token, s: Scrap) {
    s.cat == Exp && s.trans < |starts| && starts[s.trans] < |mem| && mem[starts[s.trans]] == tok
  }

  // ---------- states and steps ----------

  datatype State = State(arena: Arena, lo: seq<Scrap>, hi: seq<Scrap>, pp: nat, rawInts: set<nat>)

  datatype Setup = Setup(maxTexts: nat, table: Table)

  ghost predicate RealScraps(ss: seq<Scrap>) {
    forall i :: 0 <= i < |ss| ==> ss[i].cat != Zero
  }

  ghost predicate RefsScraps(a: Arena, ss: seq<Scrap>) {
    forall i :: 0 <= i < |ss| ==> ss[i].trans < a.Count()
  }

  // make_reserved on scrap p of lo.
  function MakeReserved(st: State, p: nat): State
    requires p < |st.lo|
  {
    match FirstIdent(st.arena, st.lo[p].trans)
    case None => st
    case Some(loc) => ReservedAt(st, p, loc, st.arena.mem[loc])
  }

  // ... when its first identifier is tok, at loc.
  function ReservedAt(st: State, p: nat, loc: nat, tok: Token): State
    requires p <= |st.lo| && IsName(tok) && loc < |st.arena.mem|
  {
    var (m1, near) := ReserveScan(st.arena.mem, st.arena.starts, tok, st.lo[p..]);
    var (m2, far) := ReserveScan(m1, st.arena.starts, tok, st.hi);
    State(Arena(m2[loc := Res(tok.name)], st.arena.starts), st.lo[..p] + near, far, st.pp, st.rawInts + {tok.name})
  }

  function Min(a: int, b: int): int { if a <= b then a else b }
  function Max(a: int, b: int): int { if a >= b then a else b }

  // Move scraps across the gap until the window is full or none are left.
  function Fill(st: State): State {
    var n := Min(|st.hi|, Max(0, st.pp + 4 - |st.lo|));
    st.(lo := st.lo + st.hi[..n], hi := st.hi[n..])
  }

  lemma FillScraps(st: State)
    ensures Fill(st).lo + Fill(st).hi == st.lo + st.hi && |Fill(st).lo| >= |st.lo|
    ensures Fill(st).pp + 4 <= |Fill(st).lo| || Fill(st).hi == []
  {
  }

  function CatAt(ss: seq<Scrap>, i: nat): Cat { if i < |ss| then ss[i].cat else Zero }

  // What fires at the cursor.
  function Chosen(st: State, table: Table): Production {
    table(CatAt(st.lo, st.pp), CatAt(st.lo, st.pp + 1), CatAt(st.lo, st.pp + 2), CatAt(st.lo, st.pp + 3))
  }

  lemma ChosenSound(st: State, table: Table)
    requires SoundTable(table) && st.pp < |st.lo| && RealScraps(st.lo)
    ensures Sound(Chosen(st, table), CatAt(st.lo, st.pp), CatAt(st.lo, st.pp + 1),
                  CatAt(st.lo, st.pp + 2), CatAt(st.lo, st.pp + 3))
    ensures Chosen(st, table).Match? ==> Firing(st, Chosen(st, table))
  {
    ChosenHere(st, table);
    SoundFires(st, Chosen(st, table));
  }

  lemma ChosenHere(st: State, table: Table)
    requires SoundTable(table) && st.pp < |st.lo| && RealScraps(st.lo)
    ensures Sound(Chosen(st, table), CatAt(st.lo, st.pp), CatAt(st.lo, st.pp + 1),
                  CatAt(st.lo, st.pp + 2), CatAt(st.lo, st.pp + 3))
  {
    WindowHere(st);
    TableSound(table, CatAt(st.lo, st.pp), CatAt(st.lo, st.pp + 1), CatAt(st.lo, st.pp + 2), CatAt(st.lo, st.pp + 3));
  }

  lemma WindowHere(st: State)
    requires st.pp < |st.lo| && RealScraps(st.lo)
    ensures Window(CatAt(st.lo, st.pp), CatAt(st.lo, st.pp + 1), CatAt(st.lo, st.pp + 2), CatAt(st.lo, st.pp + 3))
  {
  }

  lemma TableSound(table: Table, c0: Cat, c1: Cat, c2: Cat, c3: Cat)
    requires SoundTable(table) && Window(c0, c1, c2, c3)
    ensures Sound(table(c0, c1, c2, c3), c0, c1, c2, c3)
  {
  }

  lemma SoundFires(st: State, p: Production)
    requires st.pp < |st.lo|
    requires Sound(p, CatAt(st.lo, st.pp), CatAt(st.lo, st.pp + 1), CatAt(st.lo, st.pp + 2), CatAt(st.lo, st.pp + 3))
    ensures p.Match? ==> Firing(st, p)
  {
    if p.Match? { NthIs(st, p.at + p.k - 1); }
  }

  lemma NthIs(st: State, i: nat)
    requires i < 4
    ensures Nth(CatAt(st.lo, st.pp), CatAt(st.lo, st.pp + 1), CatAt(st.lo, st.pp + 2), CatAt(st.lo, st.pp + 3), i)
         == CatAt(st.lo, st.pp + i)
  {
  }

  // Production p fires at the cursor on scraps that are there.
  predicate Firing(st: State, p: Production) {
    && p.Match? && 1 <= p.k && st.pp + p.at + p.k <= |st.lo| && p.cat != Zero && p.d <= p.at + 1
    && (p.reserve.Some? ==> p.reserve.value < p.at + p.k)
  }

  datatype Outcome = Next(state: State) | Finished | Overflow

  // Replace the k scraps at j by one.
  function Replace(ss: seq<Scrap>, j: nat, k: nat, s: Scrap): seq<Scrap>
    requires j + k <= |ss|
  {
    ss[..j] + [s] + ss[j + k..]
  }

  // Fire production p at the cursor.
  function Apply(st: State, p: Production): Outcome
    requires Firing(st, p) && |st.arena.starts| >= 1
  {
    if p.keep then Next(Relabelled(st, p)) else Rewrite(Prepared(st, p.reserve), p)
  }

  // A single scrap of another category.
  function Relabelled(st: State, p: Production): State
    requires Firing(st, p)
  {
    var j := st.pp + p.at;
    st.(lo := st.lo[j := st.lo[j].(cat := p.cat)], pp := Max(st.pp + p.d, 0))
  }

  // make_reserved, if the production asks for it.
  function Prepared(st: State, reserve: Option<nat>): (s: State)
    requires reserve.Some? ==> st.pp + reserve.value < |st.lo|
    ensures |s.lo| == |st.lo| && s.pp == st.pp && s.arena.starts == st.arena.starts
  {
    if reserve.Some? then MakeReserved(st, st.pp + reserve.value) else st
  }

  function Rewrite(st: State, p: Production): Outcome
    requires Firing(st, p) && |st.arena.starts| >= 1
  {
    Merge(st, st.pp + p.at, p.k, p.cat, Written(st, p), Max(st.pp + p.d, 0))
  }

  // The text that a production composes out of the window.
  function Written(st: State, p: Production): Pen
    requires p.Match? && st.pp <= |st.lo|
  {
    Compose(p.layout, Pen([], p.seed, p.seed), st.lo[st.pp..])
  }

  // Close the text that pen has composed and put it in the place of n scraps.
  function Merge(st: State, j: nat, n: nat, cat: Cat, pen: Pen, pp: nat): Outcome
    requires j + n <= |st.lo| && |st.arena.starts| >= 1
  {
    if st.arena.Free() + |pen.out| > |st.arena.mem| then Overflow
    else
      var s := Scrap(cat, pen.init, pen.cur, st.arena.Count());
      Next(st.(arena := st.arena.Append(pen.out), lo := Replace(st.lo, j, n, s), pp := pp))
  }

  // What a turn of the main loop does once the window is full.
  function Act(f: State, setup: Setup): Outcome
    requires |f.arena.starts| >= 1 && RealScraps(f.lo) && SoundTable(setup.table)
  {
    if f.arena.Free() + 20 > |f.arena.mem| - 1 || f.arena.Count() + 10 > setup.maxTexts - 1 then
      Overflow
    else if f.pp >= |f.lo| then Finished
    else
      ChosenSound(f, setup.table);
      Obey(f, Chosen(f, setup.table))
  }

  function Obey(f: State, p: Production): Outcome
    requires |f.arena.starts| >= 1 && (p.Match? ==> Firing(f, p))
  {
    if p.NoMatch? then Next(f.(pp := f.pp + 1)) else Apply(f, p)
  }

  // One turn of the main loop.
  function Step(st: State, setup: Setup): Outcome
    requires |st.arena.starts| >= 1 && RealScraps(st.lo) && RealScraps(st.hi) && SoundTable(setup.table)
  {
    Act(Fill(st), setup)
  }
}
