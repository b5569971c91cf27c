// What make_reserved reserves: the name wherever a scrap of category exp begins with it.
module Reserving {
  import opened Wrappers
  import opened Scraps
  import opened Translate

  // The place in memory where the text of s begins.
  function PlaceOf(starts: seq<nat>, s: Scrap): Option<nat> {
    if s.trans < |starts| then Some(starts[s.trans]) else None
  }

  predicate BeginsWith(mem: seq<Token>, starts: seq<nat>, s: Scrap, tok: Token) {
    var l := PlaceOf(starts, s);
    l.Some? && l.value < |mem| && mem[l.value] == tok
  }

  // Scrap s is an exp and begins with tok.
  predicate Hit(mem: seq<Token>, starts: seq<nat>, tok: Token, s: Scrap) {
    s.cat == Exp && BeginsWith(mem, starts, s, tok)
  }

  // Where an identifier has become a reserved word it is no longer met as an identifier, so of
  // several scraps that begin at one place only the first is found.
  predicate First(mem: seq<Token>, starts: seq<nat>, tok: Token, ss: seq<Scrap>, i: nat)
    requires i < |ss|
  {
    && Hit(mem, starts, tok, ss[i])
    && (tok.Res? || forall j :: 0 <= j < i ==>
          !(Hit(mem, starts, tok, ss[j]) && PlaceOf(starts, ss[j]) == PlaceOf(starts, ss[i])))
  }

  ghost predicate HitAt(mem: seq<Token>, starts: seq<nat>, tok: Token, ss: seq<Scrap>, l: nat) {
    exists i :: 0 <= i < |ss| && Hit(mem, starts, tok, ss[i]) && PlaceOf(starts, ss[i]) == Some(l)
  }

  // Memory and scraps after the scan, given how they were before it.
  ghost predicate SweptMem(mem: seq<Token>, starts: seq<nat>, tok: Token, ss: seq<Scrap>, m: seq<Token>)
    requires IsName(tok)
  {
    && |m| == |mem|
    && forall l :: 0 <= l < |mem| ==> m[l] == if HitAt(mem, starts, tok, ss, l) then Res(tok.name) else mem[l]
  }

  ghost predicate SweptScraps(mem: seq<Token>, starts: seq<nat>, tok: Token, ss: seq<Scrap>, rr: seq<Scrap>) {
    && |rr| == |ss|
    && forall i :: 0 <= i < |ss| ==>
         rr[i] == if First(mem, starts, tok, ss, i) then ss[i].(cat := RawInt) else ss[i]
  }

  lemma SweptMemOne(mem: seq<Token>, starts: seq<nat>, tok: Token, ss: seq<Scrap>, m: seq<Token>)
    requires IsName(tok) && ss != [] && SweptMem(mem, starts, tok, ss[..|ss| - 1], m)
    ensures var s := ss[|ss| - 1];
            SweptMem(mem, starts, tok, ss,
                     if Shows(m, starts, tok, s) then m[starts[s.trans] := Res(tok.name)] else m)
  {
    LastFirst(mem, starts, tok, ss, m);
    forall l | 0 <= l < |mem|
      ensures HitAt(mem, starts, tok, ss, l)
         <==> HitAt(mem, starts, tok, ss[..|ss| - 1], l)
              || (Hit(mem, starts, tok, ss[|ss| - 1]) && PlaceOf(starts, ss[|ss| - 1]) == Some(l))
    {
      HitAtOneMore(mem, starts, tok, ss, l);
    }
  }

  lemma SweptScrapsOne(mem: seq<Token>, starts: seq<nat>, tok: Token, ss: seq<Scrap>, rr: seq<Scrap>)
    requires ss != [] && SweptScraps(mem, starts, tok, ss[..|ss| - 1], rr)
    ensures var s := ss[|ss| - 1];
            SweptScraps(mem, starts, tok, ss,
                        rr + [if First(mem, starts, tok, ss, |ss| - 1) then s.(cat := RawInt) else s])
  {
    var n := |ss| - 1;
    forall i | 0 <= i < n
      ensures First(mem, starts, tok, ss, i) <==> First(mem, starts, tok, ss[..n], i)
    {
      assert ss[..n][i] == ss[i];
    }
  }

  lemma HitAtOneMore(mem: seq<Token>, starts: seq<nat>, tok: Token, ss: seq<Scrap>, l: nat)
    requires ss != []
    ensures var n := |ss| - 1;
            HitAt(mem, starts, tok, ss, l)
            <==> HitAt(mem, starts, tok, ss[..n], l)
                 || (Hit(mem, starts, tok, ss[n]) && PlaceOf(starts, ss[n]) == Some(l))
  {
    var n := |ss| - 1;
    assert forall i :: 0 <= i < n ==> ss[..n][i] == ss[i];
  }

  // The last scrap is found exactly if it is the first at its place; if it is not, an earlier
  // one has left a reserved word there.
  lemma LastFirst(mem: seq<Token>, starts: seq<nat>, tok: Token, ss: seq<Scrap>, m: seq<Token>)
    requires IsName(tok) && ss != [] && |m| == |mem|
    requires forall l :: 0 <= l < |mem| ==>
               m[l] == if HitAt(mem, starts, tok, ss[..|ss| - 1], l) then Res(tok.name) else mem[l]
    ensures Shows(m, starts, tok, ss[|ss| - 1]) <==> First(mem, starts, tok, ss, |ss| - 1)
    ensures Hit(mem, starts, tok, ss[|ss| - 1]) && !First(mem, starts, tok, ss, |ss| - 1) ==>
              HitAt(mem, starts, tok, ss[..|ss| - 1], starts[ss[|ss| - 1].trans])
  {
    var n := |ss| - 1;
    var s := ss[n];
    if Hit(mem, starts, tok, s) {
      var l := starts[s.trans];
      if HitAt(mem, starts, tok, ss[..n], l) {
        var i :| 0 <= i < n && Hit(mem, starts, tok, ss[..n][i]) && PlaceOf(starts, ss[..n][i]) == Some(l);
        assert ss[i] == ss[..n][i];
      } else {
        forall j | 0 <= j < n
          ensures !(Hit(mem, starts, tok, ss[j]) && PlaceOf(starts, ss[j]) == PlaceOf(starts, s))
        {
          assert ss[..n][j] == ss[j];
        }
      }
    }
  }

  lemma {:induction false} ScanSweeps(mem: seq<Token>, starts: seq<nat>, tok: Token, ss: seq<Scrap>)
    requires IsName(tok)
    ensures var r := ReserveScan(mem, starts, tok, ss);
            SweptMem(mem, starts, tok, ss, r.0) && SweptScraps(mem, starts, tok, ss, r.1)
  {
    if ss != [] {
      ScanSweeps(mem, starts, tok, ss[..|ss| - 1]);
      var r := ReserveScan(mem, starts, tok, ss[..|ss| - 1]);
      LastFirst(mem, starts, tok, ss, r.0);
      SweptMemOne(mem, starts, tok, ss, r.0);
      SweptScrapsOne(mem, starts, tok, ss, r.1);
    }
  }

  // The scan over what is in play and what is to come is one scan.
  lemma {:induction false} ScanAppend(mem: seq<Token>, starts: seq<nat>, tok: Token, x: seq<Scrap>, y: seq<Scrap>)
    requires IsName(tok)
    ensures var r := ReserveScan(mem, starts, tok, x);
            var q := ReserveScan(r.0, starts, tok, y);
            ReserveScan(mem, starts, tok, x + y) == (q.0, r.1 + q.1)
    decreases |y|
  {
    if y == [] {
      assert x + y == x;
      assert ReserveScan(mem, starts, tok, x).1 + [] == ReserveScan(mem, starts, tok, x).1;
    } else {
      ScanAppend(mem, starts, tok, x, y[..|y| - 1]);
      assert (x + y)[..|x + y| - 1] == x + y[..|y| - 1] && (x + y)[|x + y| - 1] == y[|y| - 1];
      var r := ReserveScan(mem, starts, tok, x);
      var q := ReserveScan(r.0, starts, tok, y[..|y| - 1]);
      Associative(r.1, q.1, [y[|y| - 1]]);
      Associative(r.1, q.1, [y[|y| - 1].(cat := RawInt)]);
    }
  }

  // The scraps from p on, on both sides of the gap.
  function FromOn(st: State, p: nat): seq<Scrap>
    requires p <= |st.lo|
  { st.lo[p..] + st.hi }

  // make_reserved exactly: the first identifier of scrap p, and each exp from p on that begins
  // with it, first at its place, become reserved; nothing else changes.
  lemma ReservesExactly(st: State, p: nat, loc: nat)
    requires p < |st.lo| && FirstIdent(st.arena, st.lo[p].trans) == Some(loc)
    ensures var tok, s := st.arena.mem[loc], MakeReserved(st, p);
            && |s.lo| == |st.lo| && |s.hi| == |st.hi| && s.lo[..p] == st.lo[..p] && s.pp == st.pp
            && s.arena.starts == st.arena.starts && s.rawInts == st.rawInts + {tok.name}
            && |s.arena.mem| == |st.arena.mem|
            && (forall i :: 0 <= i < |FromOn(st, p)| ==>
                  FromOn(s, p)[i] == if First(st.arena.mem, st.arena.starts, tok, FromOn(st, p), i)
                                     then FromOn(st, p)[i].(cat := RawInt) else FromOn(st, p)[i])
            && (forall l :: 0 <= l < |st.arena.mem| ==>
                  s.arena.mem[l] == if l == loc || HitAt(st.arena.mem, st.arena.starts, tok, FromOn(st, p), l)
                                    then Res(tok.name) else st.arena.mem[l])
  {
    var mem, starts, tok := st.arena.mem, st.arena.starts, st.arena.mem[loc];
    ScanAppend(mem, starts, tok, st.lo[p..], st.hi);
    ScanSweeps(mem, starts, tok, FromOn(st, p));
    var r := ReserveScan(mem, starts, tok, st.lo[p..]);
    var q := ReserveScan(r.0, starts, tok, st.hi);
    var s := MakeReserved(st, p);
    assert s.lo[p..] == r.1 && s.hi == q.1;
  }

  // So after make_reserved no exp from p on begins with the identifier; each that did begins
  // with the reserved word, and is a raw_int unless an earlier one began at the same place.
  lemma NameReserved(st: State, p: nat, loc: nat)
    requires p < |st.lo| && FirstIdent(st.arena, st.lo[p].trans) == Some(loc) && st.arena.mem[loc].Id?
    ensures var tok, s := st.arena.mem[loc], MakeReserved(st, p);
            && |s.lo| == |st.lo| && |s.hi| == |st.hi|
            && forall i :: 0 <= i < |FromOn(st, p)| ==>
                 && !Hit(s.arena.mem, s.arena.starts, tok, FromOn(s, p)[i])
                 && (Hit(st.arena.mem, st.arena.starts, tok, FromOn(st, p)[i]) ==>
                       BeginsWith(s.arena.mem, s.arena.starts, FromOn(s, p)[i], Res(tok.name)))
                 && (FromOn(s, p)[i].cat == RawInt || FromOn(s, p)[i] == FromOn(st, p)[i])
  {
    ReservesExactly(st, p, loc);
    var mem, starts, ss := st.arena.mem, st.arena.starts, FromOn(st, p);
    var tok := mem[loc];
    forall i | 0 <= i < |ss| && Hit(mem, starts, tok, ss[i])
      ensures HitAt(mem, starts, tok, ss, PlaceOf(starts, ss[i]).value)
    {
      assert PlaceOf(starts, ss[i]) == Some(PlaceOf(starts, ss[i]).value);
    }
  }

  // Scraps that begin at places of their own.
  predicate Separate(starts: seq<nat>, ss: seq<Scrap>) {
    forall i, j :: 0 <= i < j < |ss| ==> PlaceOf(starts, ss[i]) != PlaceOf(starts, ss[j])
  }

  // Then every exp that begins with the identifier becomes a raw_int.
  lemma AllReserved(st: State, p: nat, loc: nat)
    requires p < |st.lo| && FirstIdent(st.arena, st.lo[p].trans) == Some(loc)
    requires Separate(st.arena.starts, FromOn(st, p))
    ensures var tok, s := st.arena.mem[loc], MakeReserved(st, p);
            && |s.lo| == |st.lo| && |s.hi| == |st.hi|
            && forall i :: 0 <= i < |FromOn(st, p)| && Hit(st.arena.mem, st.arena.starts, tok, FromOn(st, p)[i]) ==>
                 FromOn(s, p)[i] == FromOn(st, p)[i].(cat := RawInt)
  {
    ReservesExactly(st, p, loc);
  }

  // An exp that shares its place with an earlier one stays an exp.
  lemma LeftOut(st: State, p: nat, loc: nat, i: nat, j: nat)
    requires p < |st.lo| && FirstIdent(st.arena, st.lo[p].trans) == Some(loc) && st.arena.mem[loc].Id?
    requires i < j < |FromOn(st, p)|
    requires PlaceOf(st.arena.starts, FromOn(st, p)[i]) == PlaceOf(st.arena.starts, FromOn(st, p)[j])
    requires Hit(st.arena.mem, st.arena.starts, st.arena.mem[loc], FromOn(st, p)[i])
    ensures |FromOn(MakeReserved(st, p), p)| == |FromOn(st, p)|
    ensures FromOn(MakeReserved(st, p), p)[j] == FromOn(st, p)[j]
  {
    ReservesExactly(st, p, loc);
  }

  // So it is where a section name, whose second scrap is empty, comes before the identifier.
  lemma EmptyScrapTakesIt(a: Arena, foo: Scrap, empty: Scrap, again: Scrap)
    requires a == Arena([Id(5), Id(5)], [0, 1, 1, 2]) && foo.cat == empty.cat == again.cat == Exp
    requires foo.trans == 0 && empty.trans == 1 && again.trans == 2
    ensures |MakeReserved(State(a, [foo], [empty, again], 0, {}), 0).hi| == 2
    ensures MakeReserved(State(a, [foo], [empty, again], 0, {}), 0).hi[1] == again
  {
    var st := State(a, [foo], [empty, again], 0, {});
    var ss := FromOn(st, 0);
    assert ss[1] == empty && ss[2] == again;
    assert FirstIdent(a, 0) == Some(0);
    LeftOut(st, 0, 0, 1, 2);
    ReservesExactly(st, 0, 0);
    var s := MakeReserved(st, 0);
    assert FromOn(s, 0)[2] == s.hi[1];
  }
}
