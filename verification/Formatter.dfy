// The formatter as it runs: token memory, text directory and scrap array updated in
// place, with a gap between the scraps being reduced and those still to come.
module Formatter {
  import opened Wrappers
  import opened Scraps
  import opened Productions
  import opened Translate
  import opened Conservation
  import opened Steps
  import opened Runs

  // Appending can only make the text longer.
  lemma {:induction false} ComposeGrows(l: Layout, p: Pen, w: seq<Scrap>)
    ensures |Compose(l, p, w).out| >= |p.out|
    decreases l
  {
    match l
    case End =>
    case Sub(i, r) => if i < |w| { ComposeGrows(r, BigScrap(p, w[i]), w); }
    case Big(t, r) => if t.Ch? { ComposeGrows(r, BigTok(p, t), w); }
    case Raw(t, r) => ComposeGrows(r, Bare(p, t), w);
  }

  // l takes only scraps of a window of n, and its mode-sensitive tokens are characters.
  predicate Layable(l: Layout, n: nat) {
    match l
    case End => true
    case Sub(i, r) => i < n && Layable(r, n)
    case Big(t, r) => t.Ch? && Layable(r, n)
    case Raw(_, r) => Layable(r, n)
  }

  lemma {:induction false} InOrderIsLayable(l: Layout, a: nat, b: nat, n: nat)
    requires TakesInOrder(l, a, b) && b <= n
    ensures Layable(l, n)
    decreases l
  {
    match l
    case End =>
    case Sub(_, r) => InOrderIsLayable(r, a + 1, b, n);
    case Big(_, r) => InOrderIsLayable(r, a, b, n);
    case Raw(_, r) => InOrderIsLayable(r, a, b, n);
  }

  // Memory m1 is m0 with tokens laid down from p0 up to p1.
  ghost predicate Laid(m0: seq<Token>, p0: nat, m1: seq<Token>, p1: nat) {
    |m0| == |m1| && p0 <= p1 <= |m1| && m1[..p0] == m0[..p0] && m1[p1..] == m0[p1..]
  }

  lemma LaidTrans(m0: seq<Token>, p0: nat, m1: seq<Token>, p1: nat, m2: seq<Token>, p2: nat)
    requires Laid(m0, p0, m1, p1) && Laid(m1, p1, m2, p2)
    ensures Laid(m0, p0, m2, p2)
  {
    assert m2[..p0] == m2[..p1][..p0] == m1[..p1][..p0] == m0[..p0];
    assert m1[p2..] == m1[p1..][p2 - p1..] == m0[p1..][p2 - p1..] == m0[p2..];
  }

  class TokenMemory {
    const tokMem: array<Token>
    const tokStart: array<nat>
    var tokPtr: nat
    var textPtr: nat
    var initMath: Math
    var curMath: Math

    // Texts below textPtr are closed; the open one runs up to tokPtr.
    ghost predicate Open()
      reads this, tokStart
    {
      textPtr < tokStart.Length && tokStart[textPtr] <= tokPtr <= tokMem.Length
    }

    ghost function Pen(): Pen
      reads this, tokMem, tokStart
      requires Open()
    {
      Translate.Pen(tokMem[tokStart[textPtr]..tokPtr], initMath, curMath)
    }

    // There is room for p in place of the open text.
    ghost predicate Fits(p: Pen)
      reads this, tokStart
      requires Open()
    {
      tokStart[textPtr] + |p.out| <= tokMem.Length
    }

    ghost function Arena(): Arena
      reads this, tokMem, tokStart
      requires Open()
    {
      Scraps.Arena(tokMem[..], tokStart[..textPtr + 1])
    }

    constructor (tokMem: array<Token>, tokStart: array<nat>)
      requires tokMem.Length > 1 && tokStart.Length > 1
      modifies tokStart
      ensures this.tokMem == tokMem && this.tokStart == tokStart
      ensures Open() && tokPtr == 1 && Arena() == Scraps.Arena(tokMem[..], [1, 1])
    {
      this.tokMem, this.tokStart := tokMem, tokStart;
      tokPtr, textPtr := 1, 1;
      initMath, curMath := Maybe, Maybe;
      new;
      tokStart[0] := 1;
      tokStart[1] := 1;
    }

    // app
    method App(t: Token) returns (ok: bool)
      requires Open()
      modifies this`tokPtr, tokMem
      ensures Open() && Laid(old(tokMem[..]), old(tokPtr), tokMem[..], tokPtr)
      ensures ok == Fits(Bare(old(Pen()), t))
      ensures ok ==> Pen() == Bare(old(Pen()), t)
    {
      if tokPtr == tokMem.Length { return false; }
      tokMem[tokPtr] := t;
      tokPtr := tokPtr + 1;
      assert tokMem[..tokPtr - 1] == old(tokMem[..tokPtr]);
      return true;
    }

    // The part of big_app and big_app1 that changes the math mode.
    method EnterMode(m: Math) returns (ok: bool)
      requires Open() && m != Maybe
      modifies this`tokPtr, this`initMath, this`curMath, tokMem
      ensures Open() && Laid(old(tokMem[..]), old(tokPtr), tokMem[..], tokPtr)
      ensures ok == Fits(Enter(old(Pen()), m))
      ensures ok ==> Pen() == Enter(old(Pen()), m)
    {
      if curMath == Maybe {
        initMath := m;
      } else if curMath != m {
        ok := AppThree(Toggle(m));
        if !ok { return; }
      }
      curMath := m;
      ok := true;
    }

    method AppThree(three: seq<Token>) returns (ok: bool)
      requires Open() && |three| == 3
      modifies this`tokPtr, tokMem
      ensures Open() && Laid(old(tokMem[..]), old(tokPtr), tokMem[..], tokPtr)
      ensures ok == Fits(old(Pen()).(out := old(Pen()).out + three))
      ensures ok ==> Pen() == old(Pen()).(out := old(Pen()).out + three)
    {
      ok := App(three[0]);
      if !ok { return; }
      ghost var m1, p1 := tokMem[..], tokPtr;
      ok := App(three[1]);
      LaidTrans(old(tokMem[..]), old(tokPtr), m1, p1, tokMem[..], tokPtr);
      if !ok { return; }
      ghost var m2, p2 := tokMem[..], tokPtr;
      ok := App(three[2]);
      LaidTrans(old(tokMem[..]), old(tokPtr), m2, p2, tokMem[..], tokPtr);
      assert old(Pen()).out + three == old(Pen()).out + [three[0]] + [three[1]] + [three[2]];
    }

    method BigApp(t: Token) returns (ok: bool)
      requires Open() && t.Ch?
      modifies this`tokPtr, this`initMath, this`curMath, tokMem
      ensures Open() && Laid(old(tokMem[..]), old(tokPtr), tokMem[..], tokPtr)
      ensures ok == Fits(BigTok(old(Pen()), t))
      ensures ok ==> Pen() == BigTok(old(Pen()), t)
    {
      ok := EnterMode(ModeOf(t));
      if !ok { return; }
      ghost var m1, p1 := tokMem[..], tokPtr;
      ok := App(t);
      LaidTrans(old(tokMem[..]), old(tokPtr), m1, p1, tokMem[..], tokPtr);
    }

    method BigApp1(s: Scrap) returns (ok: bool)
      requires Open()
      modifies this`tokPtr, this`initMath, this`curMath, tokMem
      ensures Open() && Laid(old(tokMem[..]), old(tokPtr), tokMem[..], tokPtr)
      ensures ok == Fits(BigScrap(old(Pen()), s))
      ensures ok ==> Pen() == BigScrap(old(Pen()), s)
    {
      if s.init == Maybe {
        ok := App(Text(s.trans));
        return;
      }
      ok := EnterMode(s.init);
      if !ok { return; }
      curMath := s.fin;
      ghost var m1, p1 := tokMem[..], tokPtr;
      ok := App(Text(s.trans));
      LaidTrans(old(tokMem[..]), old(tokPtr), m1, p1, tokMem[..], tokPtr);
    }

    // What a production writes, taking scraps from w.
    method AppLayout(layout: Layout, w: seq<Scrap>) returns (ok: bool)
      requires Open() && Layable(layout, |w|)
      modifies this`tokPtr, this`initMath, this`curMath, tokMem
      ensures Open() && Laid(old(tokMem[..]), old(tokPtr), tokMem[..], tokPtr)
      ensures ok == Fits(Compose(layout, old(Pen()), w))
      ensures ok ==> Pen() == Compose(layout, old(Pen()), w)
    {
      var l := layout;
      while !l.End?
        invariant Open() && Laid(old(tokMem[..]), old(tokPtr), tokMem[..], tokPtr)
        invariant Layable(l, |w|) && Compose(layout, old(Pen()), w) == Compose(l, Pen(), w)
        decreases l
      {
        ghost var m1, p1, pen := tokMem[..], tokPtr, Pen();
        match l {
          case Sub(i, r) =>
            ok := BigApp1(w[i]);
            ComposeGrows(r, BigScrap(pen, w[i]), w);
          case Big(t, r) =>
            ok := BigApp(t);
            ComposeGrows(r, BigTok(pen, t), w);
          case Raw(t, r) =>
            ok := App(t);
            ComposeGrows(r, Bare(pen, t), w);
        }
        LaidTrans(old(tokMem[..]), old(tokPtr), m1, p1, tokMem[..], tokPtr);
        if !ok { return; }
        l := l.rest;
      }
      ok := true;
    }

    // Bare tokens one after the other.
    method AppTokens(toks: seq<Token>) returns (ok: bool)
      requires Open()
      modifies this`tokPtr, tokMem
      ensures Open() && Laid(old(tokMem[..]), old(tokPtr), tokMem[..], tokPtr)
      ensures ok == (old(tokPtr) + |toks| <= tokMem.Length)
      ensures ok ==> Pen() == old(Pen()).(out := old(Pen()).out + toks)
    {
      var i := 0;
      while i < |toks|
        invariant Open() && i <= |toks| && tokPtr == old(tokPtr) + i
        invariant Laid(old(tokMem[..]), old(tokPtr), tokMem[..], tokPtr)
        invariant Pen() == old(Pen()).(out := old(Pen()).out + toks[..i])
      {
        ghost var m1, p1 := tokMem[..], tokPtr;
        ok := App(toks[i]);
        LaidTrans(old(tokMem[..]), old(tokPtr), m1, p1, tokMem[..], tokPtr);
        if !ok { return; }
        i := i + 1;
      }
      assert toks[..i] == toks;
      ok := true;
    }

    // freeze_text
    method FreezeText()
      requires Open() && textPtr + 1 < tokStart.Length
      modifies this`textPtr, tokStart
      ensures Open() && textPtr == old(textPtr) + 1 && tokStart[textPtr] == tokPtr
      ensures tokStart[..textPtr] == old(tokStart[..textPtr + 1])
    {
      textPtr := textPtr + 1;
      tokStart[textPtr] := tokPtr;
    }

    // find_first_ident, by position in token memory.
    method FindFirstIdent(t: nat) returns (r: Option<nat>)
      requires Open() && Arena().Valid() && t < textPtr
      ensures r == FirstIdent(Arena(), t)
      decreases t
    {
      ghost var a := Arena();
      assert a.Placed(t);
      var j := tokStart[t];
      while j < tokStart[t + 1]
        invariant tokStart[t] <= j <= tokStart[t + 1]
        invariant FirstIdent(a, t) == FirstIdentFrom(a, t, j)
      {
        assert a.TextAt(t)[j - tokStart[t]] == tokMem[j];
        match tokMem[j] {
          case Id(_) => return Some(j);
          case Res(_) => return Some(j);
          case Text(u) =>
            r := FindFirstIdent(u);
            if r.Some? { return; }
          case Inner(u) =>
            r := FindFirstIdent(u);
            if r.Some? { return; }
          case Ch(_) => if tokMem[j] == INSERTED { return None; }
          case Section(_) =>
        }
        j := j + 1;
      }
      r := None;
    }
  }

  // Closing the text laid down since the last one was closed.
  lemma LaidAppend(a: Arena, out: seq<Token>, m: seq<Token>, p: nat)
    requires |a.starts| >= 1 && Laid(a.mem, a.Free(), m, p) && out == m[a.Free()..p]
    ensures a.Append(out) == Arena(m, a.starts + [p])
  {
    assert m == m[..a.Free()] + m[a.Free()..p] + m[p..];
  }

  // Moving n of the scraps hi onto lo.
  lemma FillIs(st: State, lo: seq<Scrap>, hi: seq<Scrap>)
    requires lo + hi == st.lo + st.hi && |lo| == |Fill(st).lo|
    ensures Fill(st) == st.(lo := lo, hi := hi)
  {
    var f := Fill(st);
    FillScraps(st);
    assert lo == (lo + hi)[..|lo|] && f.lo == (f.lo + f.hi)[..|lo|];
    assert hi == (lo + hi)[|lo|..] && f.hi == (f.lo + f.hi)[|lo|..];
  }

  lemma FullAlready(st: State)
    requires st.pp + 4 <= |st.lo|
    ensures Fill(st) == st
  {
    assert st.lo + [] == st.lo && st.hi[0..] == st.hi;
  }

  // Scraps base..end of the array are the window filled up, if base..lo were those in play.
  lemma FilledTo(st: State, base: nat, lo: nat, end: nat)
    requires base + |st.lo| == lo < base + st.pp + 4 && end == Min(lo + |st.hi|, base + st.pp + 4)
    ensures base + |Fill(st).lo| == end
  {
  }

  // Array now is was with the items after position p0 moved down by gap, up to p1.
  ghost predicate Moved<T>(was: seq<T>, now: seq<T>, p0: nat, p1: nat, gap: nat) {
    && |was| == |now| && p0 <= p1
    && (forall n :: 0 <= n <= p0 && n < |now| ==> now[n] == was[n])
    && (forall n :: p0 < n <= p1 && n + gap < |now| ==> now[n] == was[n + gap])
    && (forall n :: p1 + gap < n < |now| ==> now[n] == was[n])
  }

  lemma MovedOne<T>(was: seq<T>, now: seq<T>, p0: nat, p1: nat, gap: nat)
    requires Moved(was, now, p0, p1, gap) && p1 + 1 + gap < |now|
    ensures Moved(was, now[p1 + 1 := now[p1 + 1 + gap]], p0, p1 + 1, gap)
  {
  }

  lemma MovedAcross<T>(was: seq<T>, now: seq<T>, base: nat, p0: nat, p1: nat, gap: nat, end: nat)
    requires Moved(was, now, p0, p1, gap) && base <= p0 + 1 && p1 + 1 + gap <= end <= |now|
    ensures now[base..p1 + 1] + now[p1 + 1 + gap..end] == was[base..p0 + 1] + was[p0 + 1 + gap..end]
  {
    var x, y := now[base..p1 + 1] + now[p1 + 1 + gap..end], was[base..p0 + 1] + was[p0 + 1 + gap..end];
    assert |x| == |y|;
    forall i | 0 <= i < |x|
      ensures x[i] == y[i]
    {
      if i < p0 + 1 - base {
        assert now[base + i] == was[base + i];
      } else if i < p1 + 1 - base {
        assert now[base + i] == was[base + i + gap];
      } else {
        assert now[base + i + gap] == was[base + i + gap];
      }
    }
  }

  // So what was in play and to come, around the gap, still is, and the window is filled.
  lemma Crossed(was: seq<Scrap>, now: seq<Scrap>, base: nat, p0: nat, p1: nat, hi: nat, end: nat, st: State)
    requires p1 < hi <= end <= |now| && base <= p0 + 1 && Moved(was, now, p0, p1, hi - p1 - 1)
    requires st.lo == was[base..p0 + 1] && st.hi == was[p0 + hi - p1..end] && p0 < base + st.pp + 3
    requires p1 == Min(p0 + |st.hi|, base + st.pp + 3)
    ensures now[base..p1 + 1] + now[hi..end] == st.lo + st.hi && |now[base..p1 + 1]| == |Fill(st).lo|
  {
    MovedAcross(was, now, base, p0, p1, hi - p1 - 1, end);
    FilledTo(st, base, p0 + 1, p1 + 1);
  }

  // Array now is was with the items from i + gap up to end moved down by so many places.
  ghost predicate Shifted<T>(was: seq<T>, now: seq<T>, i: nat, gap: nat, end: nat) {
    && |was| == |now| && i + gap <= end <= |was|
    && (forall n :: i <= n < end - gap ==> now[n] == was[n + gap])
    && (forall n :: 0 <= n < |now| && !(i <= n < end - gap) ==> now[n] == was[n])
  }

  lemma Collapsed(was: seq<Scrap>, now: seq<Scrap>, base: nat, lo: nat, hi: nat, end: nat, j: nat, k: nat, s: Scrap,
                  near: seq<Scrap>, far: seq<Scrap>)
    requires 1 <= k && base <= j && j + k <= lo <= hi <= end <= |was|
    requires Shifted(was[j := s], now, j + 1, k - 1, lo)
    requires near == was[base..lo] && far == was[hi..end]
    ensures now[base..lo - k + 1] == Replace(near, j - base, k, s)
    ensures now[hi..end] == far
  {
    var x, y := now[base..lo - k + 1], Replace(was[base..lo], j - base, k, s);
    assert |x| == |y|;
    forall i | 0 <= i < |x|
      ensures x[i] == y[i]
    {
      assert x[i] == now[base + i];
    }
  }

  // Enough of a state to be worked on in place.
  ghost predicate Usable(st: State) {
    && st.arena.Valid() && RealScraps(st.lo) && RealScraps(st.hi)
    && RefsScraps(st.arena, st.lo) && RefsScraps(st.arena, st.hi)
  }

  lemma GoodIsUsable(st: State, k: Known)
    requires Good(st, k)
    ensures Usable(st)
  {
    GoodReal(st.arena, k, st.lo, st.hi);
    RefsGood(st.arena, k, st.lo + st.hi);
    assert forall i :: 0 <= i < |st.lo| ==> (st.lo + st.hi)[i] == st.lo[i];
    assert forall i :: 0 <= i < |st.hi| ==> (st.lo + st.hi)[|st.lo| + i] == st.hi[i];
  }

  datatype Turned = Going | Done | Full

  function TurnedBy(o: Outcome): Turned {
    match o case Next(_) => Going case Finished => Done case Overflow => Full
  }

  class Translator {
    const mem: TokenMemory
    const scrapInfo: array<Scrap>
    const table: Table
    var scrapBase: nat
    var scrapPtr: nat
    var pp: nat
    var loPtr: nat
    var hiPtr: nat
    var rawInts: set<nat>

    // The scraps scrapBase..loPtr are in play, hiPtr..scrapPtr still to come.
    ghost predicate Placed()
      reads this
    {
      && 1 <= scrapBase <= pp <= loPtr + 1 <= hiPtr <= scrapPtr + 1
      && scrapPtr + 4 < scrapInfo.Length
    }

    ghost function Lo(): seq<Scrap>
      reads this, scrapInfo
      requires Placed()
    { scrapInfo[..][scrapBase..loPtr + 1] }

    ghost function Hi(): seq<Scrap>
      reads this, scrapInfo
      requires Placed()
    { scrapInfo[..][hiPtr..scrapPtr + 1] }

    // The state is st.
    ghost predicate Is(st: State)
      reads this, scrapInfo, mem, mem.tokMem, mem.tokStart
      requires Placed() && mem.Open()
    {
      && mem.Arena() == st.arena && Lo() == st.lo && Hi() == st.hi
      && pp == scrapBase + st.pp && rawInts == st.rawInts
    }

    // No text is being composed.
    ghost predicate AtRest()
      reads this, scrapInfo, mem, mem.tokMem, mem.tokStart
    {
      Placed() && SoundTable(table) && mem.Open() && mem.tokPtr == mem.tokStart[mem.textPtr]
    }

    constructor (mem: TokenMemory, scrapInfo: array<Scrap>, forceLines: bool)
      requires scrapInfo.Length > 4 && mem.Open()
      requires mem.tokPtr == mem.tokStart[mem.textPtr] && mem.Arena().Valid()
      ensures this.mem == mem && this.scrapInfo == scrapInfo && table == Cweave(forceLines)
      ensures AtRest() && Lo() == [] && Hi() == []
    {
      this.mem, this.scrapInfo, table := mem, scrapInfo, Cweave(forceLines);
      scrapBase, scrapPtr, pp, loPtr, hiPtr := 1, 0, 1, 0, 1;
      rawInts := {};
    }

    // Category i places after the cursor.
    function CatAfter(i: nat): Cat
      reads this, scrapInfo
      requires pp + i < scrapInfo.Length
    { scrapInfo[pp + i].cat }

    // Move scraps across the gap until the window is full or there are no more.
    method CrossGap()
      requires Placed() && loPtr < pp + 3
      modifies this`loPtr, this`hiPtr, scrapInfo
      ensures Placed() && loPtr == Min(old(loPtr) + (scrapPtr + 1 - old(hiPtr)), pp + 3)
      ensures hiPtr - loPtr == old(hiPtr - loPtr) && (hiPtr > scrapPtr || loPtr == pp + 3)
      ensures Moved(old(scrapInfo[..]), scrapInfo[..], old(loPtr), loPtr, hiPtr - loPtr - 1)
    {
      ghost var was, gap := scrapInfo[..], hiPtr - loPtr - 1;
      while hiPtr <= scrapPtr && loPtr != pp + 3
        invariant Placed() && old(loPtr) <= loPtr <= pp + 3 && hiPtr == loPtr + 1 + gap
        invariant Moved(was, scrapInfo[..], old(loPtr), loPtr, gap)
        decreases pp + 3 - loPtr
      {
        MovedOne(was, scrapInfo[..], old(loPtr), loPtr, gap);
        ghost var now := scrapInfo[..];
        loPtr := loPtr + 1;
        scrapInfo[loPtr] := scrapInfo[hiPtr];
        assert scrapInfo[..] == now[loPtr := now[hiPtr]];
        hiPtr := hiPtr + 1;
      }
    }

    // Make sure that the scraps from pp on are in play, or padding where there are none.
    method FillWindow(ghost st: State) returns (ghost f: State)
      requires Placed() && mem.Open() && Is(st)
      modifies this`loPtr, this`hiPtr, scrapInfo
      ensures Placed() && f == Fill(st) && Is(f)
      ensures loPtr >= pp + 3 || Padded()
    {
      if loPtr < pp + 3 {
        Refill(st);
        f := st.(lo := Lo(), hi := Hi());
        FillIs(st, f.lo, f.hi);
      } else {
        f := st;
        FullAlready(st);
      }
    }

    method Refill(ghost st: State)
      requires Placed() && loPtr < pp + 3 && Lo() == st.lo && Hi() == st.hi && st.pp == pp - scrapBase
      modifies this`loPtr, this`hiPtr, scrapInfo
      ensures Placed() && Padded()
      ensures Lo() + Hi() == st.lo + st.hi && |Lo()| == |Fill(st).lo|
    {
      CrossGap();
      CrossedHere(old(scrapInfo[..]), old(loPtr), st);
      Pad();
    }

    lemma CrossedHere(was: seq<Scrap>, lo: nat, st: State)
      requires Placed() && Moved(was, scrapInfo[..], lo, loPtr, hiPtr - loPtr - 1) && scrapBase <= lo + 1
      requires st.lo == was[scrapBase..lo + 1] && st.hi == was[lo + hiPtr - loPtr..scrapPtr + 1]
      requires st.pp == pp - scrapBase
      requires loPtr == Min(lo + |st.hi|, pp + 3) && lo < pp + 3
      ensures Lo() + Hi() == st.lo + st.hi && |Lo()| == |Fill(st).lo|
    {
      Crossed(was, scrapInfo[..], scrapBase, lo, loPtr, hiPtr, scrapPtr + 1, st);
    }

    ghost predicate Padded()
      reads this, scrapInfo
      requires Placed()
    {
      forall n :: loPtr + 1 <= n <= pp + 3 ==> scrapInfo[n].cat == Zero
    }

    lemma WindowCats()
      requires Placed() && (loPtr >= pp + 3 || Padded())
      ensures forall i :: 0 <= i < 4 ==> CatAfter(i) == CatAt(Lo(), pp - scrapBase + i)
    {
    }

    // Zero categories from the last scrap in play to the end of the window.
    method Pad()
      requires Placed() && (hiPtr > scrapPtr || loPtr == pp + 3)
      modifies scrapInfo
      ensures Lo() == old(Lo()) && Hi() == old(Hi())
      ensures Padded()
    {
      var i := loPtr + 1;
      while i <= pp + 3
        invariant loPtr + 1 <= i
        invariant Lo() == old(Lo()) && Hi() == old(Hi())
        invariant forall n :: loPtr + 1 <= n < i && n <= pp + 3 ==> scrapInfo[n].cat == Zero
      {
        scrapInfo[i] := scrapInfo[i].(cat := Zero);
        i := i + 1;
      }
    }

    // The loop of reduce: scraps from i on move down to i1.
    method ShiftDown(i0: nat, i10: nat)
      requires Placed() && i10 < i0 <= loPtr + 1
      modifies scrapInfo
      ensures Shifted(old(scrapInfo[..]), scrapInfo[..], i10, i0 - i10, loPtr + 1)
    {
      var i, i1 := i0, i10;
      while i <= loPtr
        invariant i0 <= i <= loPtr + 1 && i1 == i10 + (i - i0)
        invariant forall n :: i10 <= n < i1 ==> scrapInfo[n] == old(scrapInfo[n + (i0 - i10)])
        invariant forall n :: 0 <= n < scrapInfo.Length && !(i10 <= n < i1) ==> scrapInfo[n] == old(scrapInfo[n])
      {
        scrapInfo[i1] := scrapInfo[i];
        i, i1 := i + 1, i1 + 1;
      }
    }

    // reduce: the k scraps at j become the scrap s.
    method Collapse(j: nat, k: nat, s: Scrap)
      requires Placed() && scrapBase <= j && 1 <= k && j + k <= loPtr + 1 && pp <= loPtr + 2 - k
      modifies this`loPtr, scrapInfo
      ensures Placed() && loPtr == old(loPtr) - k + 1
      ensures Lo() == Replace(old(Lo()), j - scrapBase, k, s) && Hi() == old(Hi())
    {
      ghost var was, end, lo, hi := scrapInfo[..], loPtr + 1, Lo(), Hi();
      Squeeze(j, k, s);
      loPtr := loPtr - k + 1;
      Collapsed(was, scrapInfo[..], scrapBase, end, hiPtr, scrapPtr + 1, j, k, s, lo, hi);
    }

    method Squeeze(j: nat, k: nat, s: Scrap)
      requires Placed() && scrapBase <= j && 1 <= k && j + k <= loPtr + 1
      modifies scrapInfo
      ensures Shifted(old(scrapInfo[..])[j := s], scrapInfo[..], j + 1, k - 1, loPtr + 1)
    {
      ghost var was := scrapInfo[..];
      scrapInfo[j] := s;
      assert scrapInfo[..] == was[j := s];
      if k > 1 { ShiftDown(j + k, j + 1); }
    }

    // Close the open text.
    method CloseText() returns (ghost out: seq<Token>)
      requires mem.Open() && mem.textPtr + 1 < mem.tokStart.Length
      modifies mem`textPtr, mem.tokStart
      ensures mem.Open() && mem.textPtr == old(mem.textPtr) + 1
      ensures mem.tokPtr == mem.tokStart[mem.textPtr] && out == old(mem.Pen()).out
      ensures mem.Arena().starts == old(mem.Arena()).starts + [mem.tokPtr]
    {
      out := mem.Pen().out;
      mem.FreezeText();
    }

    // One scrap of that loop.
    method ReserveOne(i: nat, tok: Token, ghost starts: seq<nat>, ghost ss: seq<Scrap>, ghost n: nat)
      requires mem.Open() && IsName(tok) && i < scrapInfo.Length && Scannable(starts, ss)
      requires n < |ss| && scrapInfo[i] == ss[n]
      modifies scrapInfo, mem.tokMem
      ensures var m, s := old(mem.tokMem[..]), ss[n];
              if Shows(m, starts, tok, s) then
                mem.tokMem[..] == m[starts[s.trans] := Res(tok.name)] && scrapInfo[i] == s.(cat := RawInt)
              else mem.tokMem[..] == m && scrapInfo[i] == s
      ensures forall j :: 0 <= j < scrapInfo.Length && j != i ==> scrapInfo[j] == old(scrapInfo[j])
    {
      var s := scrapInfo[i];
      if s.cat == Exp && mem.tokMem[mem.tokStart[s.trans]] == tok {
        scrapInfo[i] := s.(cat := RawInt);
        mem.tokMem[mem.tokStart[s.trans]] := Res(tok.name);
        assert mem.tokMem[..] == old(mem.tokMem[..])[starts[s.trans] := Res(tok.name)];
      } else {
        assert mem.tokMem[..] == old(mem.tokMem[..]);
      }
    }

    // The loop of make_reserved over the scraps ss from q up to end.
    method ReserveRange(q: nat, end: nat, tok: Token, ghost m0: seq<Token>, ghost starts: seq<nat>,
                        ghost ss: seq<Scrap>)
      returns (ghost out: seq<Scrap>)
      requires mem.Open() && IsName(tok) && q <= end <= scrapInfo.Length
      requires m0 == mem.tokMem[..] && |ss| == end - q && Scannable(starts, ss)
      requires forall i :: q <= i < end ==> scrapInfo[i] == ss[i - q]
      modifies scrapInfo, mem.tokMem
      ensures (mem.tokMem[..], out) == ReserveScan(m0, starts, tok, ss)
      ensures forall i :: q <= i < end ==> scrapInfo[i] == out[i - q]
      ensures forall i :: 0 <= i < scrapInfo.Length && !(q <= i < end) ==> scrapInfo[i] == old(scrapInfo[i])
    {
      var i := q;
      out := [];
      while i < end
        invariant q <= i <= end && |out| == i - q
        invariant (mem.tokMem[..], out) == ReserveScan(m0, starts, tok, ss[..i - q])
        invariant forall n :: q <= n < i ==> scrapInfo[n] == out[n - q]
        invariant forall n :: 0 <= n < scrapInfo.Length && !(q <= n < i) ==> scrapInfo[n] == old(scrapInfo[n])
      {
        assert ss[..i + 1 - q][..i - q] == ss[..i - q];
        ReserveOne(i, tok, starts, ss, i - q);
        out := out + [scrapInfo[i]];
        i := i + 1;
      }
      assert ss[..end - q] == ss;
    }

    // make_reserved
    method MakeReserved(p: nat, ghost st: State, ghost i: nat) returns (ghost s: State)
      requires AtRest() && scrapBase <= p <= loPtr && mem.tokPtr < mem.tokMem.Length && Is(st) && Usable(st)
      requires p == scrapBase + i
      modifies this`rawInts, scrapInfo, mem.tokMem
      ensures i < |st.lo| && s == Translate.MakeReserved(st, i) && Is(s)
    {
      var loc := IdentOf(p, st);
      MakeReservedIs(st, i, loc);
      s := st;
      if loc.Some? { s := ReserveFound(p, loc.value, st, i); }
    }

    method ReserveFound(p: nat, loc: nat, ghost st: State, ghost i: nat) returns (ghost s: State)
      requires AtRest() && scrapBase <= p <= loPtr && mem.tokPtr < mem.tokMem.Length && Is(st) && Usable(st)
      requires p == scrapBase + i
      requires loc < |st.arena.mem| && IsName(st.arena.mem[loc])
      modifies this`rawInts, scrapInfo, mem.tokMem
      ensures s == ReservedAt(st, i, loc, st.arena.mem[loc]) && Is(s)
    {
      StartsInRange(st);
      assert mem.tokMem[loc] == st.arena.mem[loc];
      s := ReservedAt(st, i, loc, st.arena.mem[loc]);
      ReserveAt(p, mem.tokMem[loc], loc, st, i, s);
    }

    method IdentOf(p: nat, ghost st: State) returns (loc: Option<nat>)
      requires AtRest() && scrapBase <= p <= loPtr && Is(st) && Usable(st)
      ensures loc == FirstIdent(st.arena, st.lo[p - scrapBase].trans)
    {
      assert scrapInfo[p] == st.lo[p - scrapBase];
      loc := mem.FindFirstIdent(scrapInfo[p].trans);
    }

    // ... when tok is the first identifier of scrap p, found at loc.
    method ReserveAt(p: nat, tok: Token, loc: nat, ghost st: State, ghost i: nat, ghost s: State)
      requires Placed() && mem.Open() && scrapBase <= p <= loPtr && Is(st) && p == scrapBase + i
      requires Scannable(st.arena.starts, st.lo) && Scannable(st.arena.starts, st.hi)
      requires IsName(tok) && loc < |st.arena.mem| && s == ReservedAt(st, i, loc, tok)
      modifies this`rawInts, scrapInfo, mem.tokMem
      ensures Is(s)
    {
      rawInts := rawInts + {tok.name};
      ghost var near, m1, far, m2 := Reserve(p, tok, loc, st, i);
      ReservedIs(st, i, loc, tok, near, m1, far, m2, s);
      assert mem.Arena().starts == st.arena.starts;
    }

    // Both passes over the scraps, and the identifier itself.
    method Reserve(p: nat, tok: Token, loc: nat, ghost st: State, ghost i: nat)
      returns (ghost near: seq<Scrap>, ghost m1: seq<Token>, ghost far: seq<Scrap>, ghost m2: seq<Token>)
      requires Placed() && mem.Open() && scrapBase <= p <= loPtr && IsName(tok) && loc < mem.tokMem.Length
      requires p == scrapBase + i
      requires mem.Arena() == st.arena && Lo() == st.lo && Hi() == st.hi
      requires Scannable(st.arena.starts, st.lo) && Scannable(st.arena.starts, st.hi)
      modifies scrapInfo, mem.tokMem
      ensures Scans(st, i, tok, near, m1, far, m2) && loc < |m2| && mem.tokMem[..] == m2[loc := Res(tok.name)]
      ensures Lo() == st.lo[..i] + near && Hi() == far
    {
      IsSpread(p, i, st.lo);
      near, m1, far, m2 := ReservePasses(p, tok, loc, st, i);
      SpreadIs(p, i, st.lo, near, far);
    }


    // The array holds lo up to p, then near, and beyond the gap far.
    ghost predicate Spread(p: nat, lo: seq<Scrap>, near: seq<Scrap>, far: seq<Scrap>)
      reads this, scrapInfo
    {
      && Placed() && scrapBase <= p <= loPtr + 1 && p - scrapBase <= |lo|
      && |near| == loPtr + 1 - p && |far| == scrapPtr + 1 - hiPtr
      && (forall i :: scrapBase <= i < p ==> scrapInfo[i] == lo[i - scrapBase])
      && (forall i :: p <= i < loPtr + 1 ==> scrapInfo[i] == near[i - p])
      && (forall i :: hiPtr <= i < scrapPtr + 1 ==> scrapInfo[i] == far[i - hiPtr])
    }

    lemma SpreadIs(p: nat, i: nat, lo: seq<Scrap>, near: seq<Scrap>, far: seq<Scrap>)
      requires Spread(p, lo, near, far) && p == scrapBase + i && i <= |lo|
      ensures Lo() == lo[..i] + near && Hi() == far
    {
      SliceIs(scrapInfo[..], scrapBase, p, lo[..i]);
      SliceIs(scrapInfo[..], p, loPtr + 1, near);
      assert Lo() == scrapInfo[..][scrapBase..p] + scrapInfo[..][p..loPtr + 1];
      SliceIs(scrapInfo[..], hiPtr, scrapPtr + 1, far);
    }

    lemma IsSpread(p: nat, i: nat, lo: seq<Scrap>)
      requires Placed() && scrapBase <= p <= loPtr + 1 && Lo() == lo && p == scrapBase + i
      ensures i <= |lo| && Spread(p, lo, lo[i..], Hi())
    {
    }

    // The loop of make_reserved, the scraps in play from p on, then those to come; then
    // the identifier itself.
    method ReservePasses(p: nat, tok: Token, loc: nat, ghost st: State, ghost i: nat)
      returns (ghost near: seq<Scrap>, ghost m1: seq<Token>, ghost far: seq<Scrap>, ghost m2: seq<Token>)
      requires mem.Open() && IsName(tok) && loc < mem.tokMem.Length
      requires i <= |st.lo| && st.arena.mem == mem.tokMem[..] && Spread(p, st.lo, st.lo[i..], st.hi)
      requires Scannable(st.arena.starts, st.lo) && Scannable(st.arena.starts, st.hi)
      modifies scrapInfo, mem.tokMem
      ensures loc < |m2| && Scans(st, i, tok, near, m1, far, m2) && mem.tokMem[..] == m2[loc := Res(tok.name)]
      ensures Spread(p, st.lo, near, far)
    {
      near := ReserveNear(p, tok, st.arena, st.lo, st.lo[i..], st.hi);
      m1 := mem.tokMem[..];
      far := ReserveFar(p, tok, Arena(m1, st.arena.starts), st.lo, near, st.hi);
      m2 := mem.tokMem[..];
      mem.tokMem[loc] := Res(tok.name);
    }

    // Closed texts of token memory, those of the scraps ss among them, with their starts.
    ghost predicate Scannable(starts: seq<nat>, ss: seq<Scrap>)
      reads this, mem, mem.tokStart
    {
      && mem.textPtr < mem.tokStart.Length && starts == mem.tokStart[..mem.textPtr + 1]
      && (forall i :: 0 <= i < |ss| ==> ss[i].trans < mem.textPtr)
      && (forall t :: 0 <= t < mem.textPtr ==> starts[t] < mem.tokMem.Length)
    }

    method ReserveNear(p: nat, tok: Token, ghost a: Arena, ghost lo: seq<Scrap>, ghost ss: seq<Scrap>,
                       ghost far: seq<Scrap>)
      returns (ghost near: seq<Scrap>)
      requires mem.Open() && IsName(tok) && a.mem == mem.tokMem[..] && Spread(p, lo, ss, far)
      requires Scannable(a.starts, ss)
      modifies scrapInfo, mem.tokMem
      ensures (mem.tokMem[..], near) == ReserveScan(a.mem, a.starts, tok, ss) && Spread(p, lo, near, far)
    {
      near := ReserveRange(p, loPtr + 1, tok, a.mem, a.starts, ss);
    }

    method ReserveFar(p: nat, tok: Token, ghost a: Arena, ghost lo: seq<Scrap>, ghost near: seq<Scrap>,
                      ghost ss: seq<Scrap>)
      returns (ghost far: seq<Scrap>)
      requires mem.Open() && IsName(tok) && a.mem == mem.tokMem[..] && Spread(p, lo, near, ss)
      requires Scannable(a.starts, ss)
      modifies scrapInfo, mem.tokMem
      ensures (mem.tokMem[..], far) == ReserveScan(a.mem, a.starts, tok, ss) && Spread(p, lo, near, far)
    {
      far := ReserveRange(hiPtr, scrapPtr + 1, tok, a.mem, a.starts, ss);
    }

    lemma StartsInRange(st: State)
      requires AtRest() && Is(st) && Usable(st) && mem.tokPtr < mem.tokMem.Length
      ensures Scannable(st.arena.starts, st.lo) && Scannable(st.arena.starts, st.hi)
    {
      forall t | 0 <= t < mem.textPtr
        ensures st.arena.starts[t] < mem.tokMem.Length
      {
        assert st.arena.Placed(t);
      }
    }

    // Write what layout asks for as a new text, from math mode seed on.
    method WriteText(layout: Layout, seed: Math, ghost a: Arena, ghost w: seq<Scrap>) returns (ok: bool)
      requires Placed() && mem.Open() && mem.tokPtr == mem.tokStart[mem.textPtr] && a == mem.Arena()
      requires mem.textPtr + 1 < mem.tokStart.Length
      requires w == scrapInfo[..][pp..loPtr + 1] && Layable(layout, |w|)
      modifies mem`tokPtr, mem`textPtr, mem`initMath, mem`curMath, mem.tokMem, mem.tokStart
      ensures mem.Open()
      ensures var pen := Compose(layout, Pen([], seed, seed), w);
              && ok == (a.Free() + |pen.out| <= |a.mem|)
              && (ok ==> mem.tokPtr == mem.tokStart[mem.textPtr] && mem.Arena() == a.Append(pen.out)
                         && mem.textPtr == old(mem.textPtr) + 1
                         && mem.initMath == pen.init && mem.curMath == pen.cur)
    {
      mem.initMath, mem.curMath := seed, seed;
      ghost var m0, p0 := mem.tokMem[..], mem.tokPtr;
      assert mem.Pen() == Pen([], seed, seed);
      ok := mem.AppLayout(layout, scrapInfo[pp..loPtr + 1]);
      if !ok { return; }
      ghost var m1, p1 := mem.tokMem[..], mem.tokPtr;
      ghost var out := CloseText();
      LaidAppend(a, out, m1, p1);
    }

    // squash and reduce: production p fires at the cursor.
    method Fire(p: Production, ghost st: State) returns (ok: bool, ghost o: Outcome)
      requires AtRest() && Is(st) && Usable(st) && Firing(st, p)
      requires !p.keep ==> Layable(p.layout, |st.lo| - st.pp)
      requires mem.tokPtr < mem.tokMem.Length && mem.textPtr + 1 < mem.tokStart.Length
      modifies this`loPtr, this`pp, this`rawInts, scrapInfo
      modifies mem`tokPtr, mem`textPtr, mem`initMath, mem`curMath, mem.tokMem, mem.tokStart
      ensures o == Apply(st, p) && Results(o, ok)
    {
      if p.keep {
        Recategorise(p, st);
        ok, o := true, Next(Relabelled(st, p));
      } else {
        Prepare(p.reserve, st);
        ok, o := Rewrite(p, Prepared(st, p.reserve));
      }
    }

    // The state is that of outcome o, or there is no room for it.
    ghost predicate Results(o: Outcome, ok: bool)
      reads this, scrapInfo, mem, mem.tokMem, mem.tokStart
    {
      && ok == o.Next?
      && (ok ==> Placed() && mem.Open() && mem.tokPtr == mem.tokStart[mem.textPtr] && Is(o.state))
    }

    // make_reserved, if the production asks for it.
    method Prepare(reserve: Option<nat>, ghost st: State)
      requires AtRest() && Is(st) && Usable(st) && mem.tokPtr < mem.tokMem.Length
      requires reserve.Some? ==> st.pp + reserve.value < |st.lo|
      modifies this`rawInts, scrapInfo, mem.tokMem
      ensures Is(Prepared(st, reserve))
    {
      PreparedIs(st, reserve);
      if reserve.Some? { ghost var s := MakeReserved(pp + reserve.value, st, st.pp + reserve.value); }
    }

    method Rewrite(p: Production, ghost st: State) returns (ok: bool, ghost o: Outcome)
      requires Placed() && mem.Open() && mem.tokPtr == mem.tokStart[mem.textPtr]
      requires Is(st) && Firing(st, p) && Layable(p.layout, |st.lo| - st.pp)
      requires mem.textPtr + 1 < mem.tokStart.Length
      modifies this`loPtr, this`pp, scrapInfo
      modifies mem`tokPtr, mem`textPtr, mem`initMath, mem`curMath, mem.tokMem, mem.tokStart
      ensures o == Translate.Rewrite(st, p) && Results(o, ok)
    {
      ghost var pen := Written(st, p);
      o := Translate.Rewrite(st, p);
      MergeIs(st, p, pen, o);
      ok := Put(p, pen, st.arena, st.lo, st.hi, st.pp);
    }

    // The text of production p, composed by pen, in the place of p.k scraps.
    method Put(p: Production, ghost pen: Pen, ghost a: Arena, ghost lo: seq<Scrap>, ghost hi: seq<Scrap>, ghost at: nat)
      returns (ok: bool)
      requires Placed() && mem.Open() && mem.tokPtr == mem.tokStart[mem.textPtr]
      requires mem.textPtr + 1 < mem.tokStart.Length
      requires a == mem.Arena() && lo == Lo() && hi == Hi() && at == pp - scrapBase
      requires p.Match? && at <= |lo| && pen == Compose(p.layout, Pen([], p.seed, p.seed), lo[at..])
      requires 1 <= p.k && at + p.at + p.k <= |lo| && p.d <= p.at + 1
      requires Layable(p.layout, |lo| - at)
      modifies this`loPtr, this`pp, scrapInfo
      modifies mem`tokPtr, mem`textPtr, mem`initMath, mem`curMath, mem.tokMem, mem.tokStart
      ensures ok == (a.Free() + |pen.out| <= |a.mem|)
      ensures ok ==> Placed() && mem.Open() && mem.tokPtr == mem.tokStart[mem.textPtr]
      ensures ok ==> mem.Arena() == a.Append(pen.out) && Hi() == hi && pp == scrapBase + Max(at + p.d, 0)
      ensures ok ==> Lo() == Replace(lo, at + p.at, p.k, Scrap(p.cat, pen.init, pen.cur, a.Count()))
    {
      assert lo[at..] == scrapInfo[..][pp..loPtr + 1];
      ok := WriteText(p.layout, p.seed, a, lo[at..]);
      if !ok { return; }
      PutScrap(p, Scrap(p.cat, mem.initMath, mem.curMath, mem.textPtr - 1), lo, at);
    }

    // The scrap s in the place of those that production p takes, and the cursor moved.
    method PutScrap(p: Production, s: Scrap, ghost lo: seq<Scrap>, ghost at: nat)
      requires Placed() && lo == Lo() && at == pp - scrapBase
      requires p.Match? && 1 <= p.k && at + p.at + p.k <= |lo| && p.d <= p.at + 1
      modifies this`loPtr, this`pp, scrapInfo
      ensures Placed() && Lo() == Replace(lo, at + p.at, p.k, s) && Hi() == old(Hi())
      ensures pp == scrapBase + Max(at + p.d, 0)
    {
      Collapse(pp + p.at, p.k, s);
      pp := Max(pp + p.d, scrapBase);
    }

    // A turn of the main loop, from the state st.
    method Turn(ghost st: State, ghost k: Known, ghost setup: Setup) returns (r: Turned)
      requires AtRest() && setup == Setup(mem.tokStart.Length, table)
      requires Is(st) && Good(st, k)
      modifies this`loPtr, this`hiPtr, this`pp, this`rawInts, scrapInfo
      modifies mem`tokPtr, mem`textPtr, mem`initMath, mem`curMath, mem.tokMem, mem.tokStart
      ensures Reached(st, k, r, setup)
    {
      FillGood(st, k);
      ghost var f := FillWindow(st);
      GoodIsUsable(f, k);
      ghost var o;
      r, o := ActOn(f, setup);
      StepIs(st, k, setup, o);
    }

    method ActOn(ghost f: State, ghost setup: Setup) returns (r: Turned, ghost o: Outcome)
      requires AtRest() && setup == Setup(mem.tokStart.Length, table)
      requires Is(f) && Usable(f) && (loPtr >= pp + 3 || Padded())
      modifies this`loPtr, this`pp, this`rawInts, scrapInfo
      modifies mem`tokPtr, mem`textPtr, mem`initMath, mem`curMath, mem.tokMem, mem.tokStart
      ensures o == Act(f, setup) && r == TurnedBy(o)
      ensures if r == Done then AtRest() && Is(f) else Results(o, r == Going)
    {
      ActIs(f, setup);
      if mem.tokPtr + 20 > mem.tokMem.Length - 1 || mem.textPtr + 10 > mem.tokStart.Length - 1 {
        return Full, Overflow;
      }
      if pp > loPtr { return Done, Finished; }
      var ok;
      ok, o := Rule(f);
      r := if ok then Going else Full;
    }

    // Whatever the table has for the window.
    method Rule(ghost f: State) returns (ok: bool, ghost o: Outcome)
      requires AtRest()
      requires Is(f) && Usable(f) && pp <= loPtr && (loPtr >= pp + 3 || Padded())
      requires mem.tokPtr < mem.tokMem.Length && mem.textPtr + 1 < mem.tokStart.Length
      modifies this`loPtr, this`pp, this`rawInts, scrapInfo
      modifies mem`tokPtr, mem`textPtr, mem`initMath, mem`curMath, mem.tokMem, mem.tokStart
      ensures Chosen(f, table).Match? ==> Firing(f, Chosen(f, table))
      ensures o == Obey(f, Chosen(f, table)) && Results(o, ok)
    {
      var p := table(CatAfter(0), CatAfter(1), CatAfter(2), CatAfter(3));
      ChosenHere(f);
      ChosenWritable(f, table);
      if p.NoMatch? {
        pp := pp + 1;
        ok, o := true, Next(f.(pp := f.pp + 1));
      } else {
        ok, o := Fire(p, f);
      }
    }

    // The categories read from the array are those of the window.
    lemma ChosenHere(f: State)
      requires Placed() && mem.Open() && Is(f) && (loPtr >= pp + 3 || Padded())
      ensures table(CatAfter(0), CatAfter(1), CatAfter(2), CatAfter(3)) == Chosen(f, table)
    {
      WindowCats();
    }

    // The scraps translate is given.
    ghost function Given(): seq<Scrap>
      reads this, scrapInfo
      requires scrapBase <= scrapPtr + 1 <= scrapInfo.Length
    { scrapInfo[..][scrapBase..scrapPtr + 1] }

    // translate: the number of the text that the scraps become, or nothing if memory is full.
    method TranslateScraps() returns (r: Option<nat>)
      requires 1 <= scrapBase <= scrapPtr + 1 && scrapPtr + 4 < scrapInfo.Length && SoundTable(table)
      requires mem.Open() && mem.tokPtr == mem.tokStart[mem.textPtr] && Input(mem.Arena(), Given())
      modifies this, mem, scrapInfo, mem.tokMem, mem.tokStart
      ensures Ready(Start(old(mem.Arena()), old(Given())))
      ensures r.Some? ==> mem.Open()
      ensures Translation(old(mem.Arena()), old(Given()), Setup(mem.tokStart.Length, table))
           == if r.Some? then Some((mem.Arena(), r.value)) else None
    {
      ghost var a, ss, setup := mem.Arena(), Given(), Setup(mem.tokStart.Length, table);
      Rewind();
      ghost var st, k := Start(a, ss), KnownOf(a, ss);
      StartGood(a, ss);
      var turned := Turn(st, k, setup);
      while turned == Going
        invariant Reached(st, k, turned, setup)
        invariant Run(st, setup) == Run(Start(a, ss), setup)
        decreases Count(st), Ranks(st), Ahead(st)
      {
        turned, st := NextTurn(st, k, setup);
      }
      if turned == Full { return None; }
      r := Close(Fill(st));
    }

    // A turn has been made from the state st.
    ghost predicate Reached(st: State, k: Known, turned: Turned, setup: Setup)
      reads this, scrapInfo, mem, mem.tokMem, mem.tokStart
    {
      && SoundTable(setup.table) && setup == Setup(mem.tokStart.Length, table)
      && Good(st, k) && Ready(st) && turned == TurnedBy(Step(st, setup))
      && (turned != Full ==>
            && Placed() && mem.Open() && mem.tokPtr == mem.tokStart[mem.textPtr]
            && Is(if turned == Done then Fill(st) else Step(st, setup).state))
    }

    method NextTurn(ghost st: State, ghost k: Known, ghost setup: Setup) returns (r: Turned, ghost s: State)
      requires Reached(st, k, Going, setup)
      modifies this`loPtr, this`hiPtr, this`pp, this`rawInts, scrapInfo
      modifies mem`tokPtr, mem`textPtr, mem`initMath, mem`curMath, mem.tokMem, mem.tokStart
      ensures Reached(s, k, r, setup) && Smaller(s, st) && Run(s, setup) == Run(st, setup)
    {
      GoesOn(st, k, setup);
      s := Step(st, setup).state;
      r := Turn(s, k, setup);
    }

    // No scraps in play yet, all of them to come.
    method Rewind()
      requires 1 <= scrapBase <= scrapPtr + 1 && scrapPtr + 4 < scrapInfo.Length && mem.Open()
      modifies this`pp, this`loPtr, this`hiPtr, this`rawInts
      ensures Placed() && Is(Start(mem.Arena(), Given()))
    {
      pp, loPtr, hiPtr, rawInts := scrapBase, scrapBase - 1, scrapBase, {};
    }

    // The final scraps one after the other, with a check after each.
    method WriteClosing(ghost lo: seq<Scrap>) returns (ok: bool)
      requires Placed() && mem.Open() && mem.tokPtr == mem.tokStart[mem.textPtr] && lo == Lo()
      modifies mem`tokPtr, mem.tokMem
      ensures mem.Open() && Laid(old(mem.tokMem[..]), old(mem.tokPtr), mem.tokMem[..], mem.tokPtr)
      ensures ok == (old(mem.tokPtr) + |Closing(lo, true)| + (if lo == [] then 0 else 7) <= mem.tokMem.Length)
      ensures ok ==> mem.Pen().out == Closing(lo, true)
    {
      ghost var m0, p0 := mem.tokMem[..], mem.tokPtr;
      var j := scrapBase;
      while j <= loPtr
        invariant scrapBase <= j <= loPtr + 1 && mem.Open()
        invariant Laid(m0, p0, mem.tokMem[..], mem.tokPtr)
        invariant Closing(lo, true) == mem.Pen().out + Closing(lo[j - scrapBase..], j == scrapBase)
        invariant j == scrapBase || mem.tokPtr + 7 <= mem.tokMem.Length
      {
        ok := WriteScrap(j, lo, m0, p0);
        if !ok || mem.tokPtr + 6 > mem.tokMem.Length - 1 { return false; }
        j := j + 1;
      }
      assert lo[j - scrapBase..] == [];
      ok := true;
    }

    method WriteScrap(j: nat, ghost lo: seq<Scrap>, ghost m0: seq<Token>, ghost p0: nat) returns (ok: bool)
      requires Placed() && mem.Open() && lo == Lo() && scrapBase <= j <= loPtr
      requires Laid(m0, p0, mem.tokMem[..], mem.tokPtr)
      modifies mem`tokPtr, mem.tokMem
      ensures mem.Open() && Laid(m0, p0, mem.tokMem[..], mem.tokPtr)
      ensures ok == (old(mem.tokPtr) + |Wrapped(lo[j - scrapBase], j == scrapBase)| <= mem.tokMem.Length)
      ensures ok ==>
                && mem.tokPtr == old(mem.tokPtr) + |Wrapped(lo[j - scrapBase], j == scrapBase)|
                && old(mem.Pen().out) + Closing(lo[j - scrapBase..], j == scrapBase)
                == mem.Pen().out + Closing(lo[j + 1 - scrapBase..], false)
    {
      ghost var m1, p1, out := mem.tokMem[..], mem.tokPtr, mem.Pen().out;
      assert scrapInfo[j] == lo[j - scrapBase];
      ClosingStep(lo, j - scrapBase, out, Wrapped(scrapInfo[j], j == scrapBase));
      ok := mem.AppTokens(Wrapped(scrapInfo[j], j == scrapBase));
      LaidTrans(m0, p0, m1, p1, mem.tokMem[..], mem.tokPtr);
    }

    // The text that translate returns.
    method Close(ghost f: State) returns (r: Option<nat>)
      requires Placed() && mem.Open() && mem.tokPtr == mem.tokStart[mem.textPtr] && Is(f)
      requires mem.textPtr + 1 < mem.tokStart.Length
      modifies mem, mem.tokMem, mem.tokStart
      ensures r.Some? ==> mem.Open()
      ensures Closed(f) == if r.Some? then Some((mem.Arena(), r.value)) else None
    {
      var ok := WriteClosing(f.lo);
      if !ok { return None; }
      ghost var m1, p1 := mem.tokMem[..], mem.tokPtr;
      ghost var out := CloseText();
      LaidAppend(f.arena, out, m1, p1);
      return Some(mem.textPtr - 1);
    }

    // squash of a single scrap.
    method Recategorise(p: Production, ghost st: State)
      requires AtRest() && Is(st) && Firing(st, p)
      modifies this`pp, scrapInfo
      ensures AtRest() && Is(Relabelled(st, p))
    {
      SetCat(pp + p.at, p.cat, st.lo);
      RelabelledIs(st, p, Lo());
      pp := Max(pp + p.d, scrapBase);
    }

    method SetCat(j: nat, c: Cat, ghost lo: seq<Scrap>)
      requires Placed() && scrapBase <= j <= loPtr && lo == Lo()
      modifies scrapInfo
      ensures Lo() == lo[j - scrapBase := lo[j - scrapBase].(cat := c)] && Hi() == old(Hi())
    {
      scrapInfo[j] := scrapInfo[j].(cat := c);
    }
  }

  lemma ClosingStep(lo: seq<Scrap>, n: nat, out: seq<Token>, w: seq<Token>)
    requires n < |lo| && w == Wrapped(lo[n], n == 0)
    ensures out + Closing(lo[n..], n == 0) == (out + w) + Closing(lo[n + 1..], false)
  {
    assert lo[n..][1..] == lo[n + 1..];
  }

  lemma PreparedIs(st: State, reserve: Option<nat>)
    requires reserve.Some? ==> st.pp + reserve.value < |st.lo|
    ensures Prepared(st, reserve)
         == if reserve.Some? then Translate.MakeReserved(st, st.pp + reserve.value) else st
  {
  }

  // How a production's text takes the place of scraps.
  lemma MergeIs(st: State, p: Production, pen: Pen, o: Outcome)
    requires Firing(st, p) && |st.arena.starts| >= 1 && pen == Written(st, p) && o == Translate.Rewrite(st, p)
    ensures o.Next? == (st.arena.Free() + |pen.out| <= |st.arena.mem|)
    ensures o.Next? ==>
              o.state
              == State(st.arena.Append(pen.out),
                       Replace(st.lo, st.pp + p.at, p.k, Scrap(p.cat, pen.init, pen.cur, st.arena.Count())),
                       st.hi, Max(st.pp + p.d, 0), st.rawInts)
  {
  }

  // What one turn of the loop does to the state.
  lemma GoesOn(st: State, k: Known, setup: Setup)
    requires Ready(st) && Good(st, k) && SoundTable(setup.table) && Step(st, setup).Next?
    ensures var s := Step(st, setup).state;
            Ready(s) && Good(s, k) && Smaller(s, st) && Run(s, setup) == Run(st, setup)
  {
    StepSmaller(st, setup);
    StepGood(st, k, setup);
  }

  // What a turn comes to, the window being filled.
  lemma ActIs(f: State, setup: Setup)
    requires |f.arena.starts| >= 1 && RealScraps(f.lo) && SoundTable(setup.table)
    ensures var full := f.arena.Free() + 20 > |f.arena.mem| - 1 || f.arena.Count() + 10 > setup.maxTexts - 1;
            && (full ==> Act(f, setup) == Overflow)
            && (!full && f.pp >= |f.lo| ==> Act(f, setup) == Finished)
            && (!full && f.pp < |f.lo| ==>
                  && (Chosen(f, setup.table).Match? ==> Firing(f, Chosen(f, setup.table)))
                  && Act(f, setup) == Obey(f, Chosen(f, setup.table)))
  {
    if f.pp < |f.lo| { ChosenSound(f, setup.table); }
  }

  lemma StepIs(st: State, k: Known, setup: Setup, o: Outcome)
    requires Good(st, k) && SoundTable(setup.table) && |Fill(st).arena.starts| >= 1 && RealScraps(Fill(st).lo)
    requires o == Act(Fill(st), setup)
    ensures Ready(st) && o == Step(st, setup)
  {
    GoodReal(st.arena, k, st.lo, st.hi);
  }

  // A production that only changes a category.
  lemma RelabelledIs(st: State, p: Production, lo: seq<Scrap>)
    requires Firing(st, p)
    requires lo == st.lo[st.pp + p.at := st.lo[st.pp + p.at].(cat := p.cat)]
    ensures Relabelled(st, p) == State(st.arena, lo, st.hi, Max(st.pp + p.d, 0), st.rawInts)
    ensures Max(st.pp + p.d, 0) <= |lo|
  {
  }

  // What a sound table's production writes takes scraps of the window only.
  lemma ChosenWritable(f: State, table: Table)
    requires SoundTable(table) && f.pp < |f.lo| && RealScraps(f.lo)
    ensures var p := Chosen(f, table);
            p.Match? ==> Firing(f, p) && (!p.keep ==> Layable(p.layout, |f.lo| - f.pp))
  {
    ChosenSound(f, table);
    SoundWritable(f, Chosen(f, table));
  }

  lemma SoundWritable(f: State, p: Production)
    requires f.pp < |f.lo| && (p.Match? ==> Firing(f, p))
    requires Sound(p, CatAt(f.lo, f.pp), CatAt(f.lo, f.pp + 1), CatAt(f.lo, f.pp + 2), CatAt(f.lo, f.pp + 3))
    ensures p.Match? && !p.keep ==> Layable(p.layout, |f.lo| - f.pp)
  {
    if p.Match? && !p.keep && !IsAngle(p) {
      InOrderIsLayable(p.layout, p.at, p.at + p.k, |f.lo| - f.pp);
    }
  }

  lemma SliceIs<T>(s: seq<T>, a: nat, b: nat, t: seq<T>)
    requires a <= b <= |s| && |t| == b - a && forall i :: a <= i < b ==> s[i] == t[i - a]
    ensures s[a..b] == t
  {
  }

  lemma ReservedIs(st: State, p: nat, loc: nat, tok: Token, near: seq<Scrap>, m1: seq<Token>, far: seq<Scrap>,
                   m2: seq<Token>, r: State)
    requires p <= |st.lo| && IsName(tok) && loc < |st.arena.mem| && Scans(st, p, tok, near, m1, far, m2)
    requires r == ReservedAt(st, p, loc, tok)
    ensures loc < |m2| && r.arena == Arena(m2[loc := Res(tok.name)], st.arena.starts)
    ensures r.lo == st.lo[..p] + near && r.hi == far && r.pp == st.pp && r.rawInts == st.rawInts + {tok.name}
  {
  }

  lemma MakeReservedIs(st: State, p: nat, loc: Option<nat>)
    requires p < |st.lo| && loc == FirstIdent(st.arena, st.lo[p].trans)
    ensures loc.None? ==> Translate.MakeReserved(st, p) == st
    ensures loc.Some? ==>
              && loc.value < |st.arena.mem| && IsName(st.arena.mem[loc.value])
              && Translate.MakeReserved(st, p) == ReservedAt(st, p, loc.value, st.arena.mem[loc.value])
  {
  }

  // What the two passes of make_reserved compute.
  ghost predicate Scans(st: State, p: nat, tok: Token, near: seq<Scrap>, m1: seq<Token>, far: seq<Scrap>,
                        m2: seq<Token>)
    requires p <= |st.lo| && IsName(tok)
  {
    && (m1, near) == ReserveScan(st.arena.mem, st.arena.starts, tok, st.lo[p..])
    && (m2, far) == ReserveScan(m1, st.arena.starts, tok, st.hi)
  }
}
