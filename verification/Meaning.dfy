// What a text means: its flattening into leaves and inserted tokens, the leaves it
// keeps, and how it reads as TeX switching in and out of math mode.
module Meaning {
  import opened Wrappers
  import opened Scraps

  // Texts numbered below base are the leaves, given from outside.
  datatype Atom = Leaf(t: nat) | Mark(tok: Token)

  // In a valid arena every reference is to an earlier text, so the guards on u never fail.
  function Flat(a: Arena, base: nat, t: nat): seq<Atom>
    decreases t, 2, 0
  {
    if t < base || t >= a.Count() then [Leaf(t)] else FlatToks(a, base, a.TextAt(t), t)
  }

  function Expand(a: Arena, base: nat, tok: Token, bound: nat): seq<Atom>
    decreases bound, 0, 0
  {
    match tok
    case Text(u) => if u < bound then Flat(a, base, u) else [Mark(tok)]
    case Inner(u) => if u < bound then Flat(a, base, u) else [Mark(tok)]
    case _ => [Mark(tok)]
  }

  function FlatToks(a: Arena, base: nat, toks: seq<Token>, bound: nat): seq<Atom>
    decreases bound, 1, |toks|
  {
    if toks == [] then [] else Expand(a, base, toks[0], bound) + FlatToks(a, base, toks[1..], bound)
  }

  function FlatScraps(a: Arena, base: nat, ss: seq<Scrap>): seq<Atom> {
    if ss == [] then [] else Flat(a, base, ss[0].trans) + FlatScraps(a, base, ss[1..])
  }

  lemma {:induction false} FlatToksAppend(a: Arena, base: nat, x: seq<Token>, y: seq<Token>, bound: nat)
    ensures FlatToks(a, base, x + y, bound) == FlatToks(a, base, x, bound) + FlatToks(a, base, y, bound)
    decreases |x|
  {
    if x == [] {
      assert x + y == y;
    } else {
      FlatToksAppend(a, base, x[1..], y, bound);
      assert (x + y)[1..] == x[1..] + y && (x + y)[0] == x[0];
      Associative(Expand(a, base, x[0], bound), FlatToks(a, base, x[1..], bound), FlatToks(a, base, y, bound));
    }
  }

  lemma {:induction false} FlatScrapsAppend(a: Arena, base: nat, x: seq<Scrap>, y: seq<Scrap>)
    ensures FlatScraps(a, base, x + y) == FlatScraps(a, base, x) + FlatScraps(a, base, y)
  {
    if x == [] {
      assert x + y == y;
    } else {
      FlatScrapsAppend(a, base, x[1..], y);
      assert (x + y)[1..] == x[1..] + y && (x + y)[0] == x[0];
      Associative(Flat(a, base, x[0].trans), FlatScraps(a, base, x[1..]), FlatScraps(a, base, y));
    }
  }

  // The flattening looks at built texts only, so it survives any change that leaves
  // those alone.
  lemma {:induction false} FlatFrame(a: Arena, b: Arena, base: nat, t: nat)
    requires t < a.Count() <= b.Count()
    requires forall u :: base <= u < a.Count() ==> b.TextAt(u) == a.TextAt(u)
    ensures Flat(b, base, t) == Flat(a, base, t)
    decreases t, 2, 0
  {
    if t >= base {
      FlatToksFrame(a, b, base, a.TextAt(t), t);
    }
  }

  lemma {:induction false} FlatToksFrame(a: Arena, b: Arena, base: nat, toks: seq<Token>, bound: nat)
    requires bound <= a.Count() <= b.Count()
    requires forall u :: base <= u < a.Count() ==> b.TextAt(u) == a.TextAt(u)
    ensures FlatToks(b, base, toks, bound) == FlatToks(a, base, toks, bound)
    decreases bound, 1, |toks|
  {
    if toks != [] {
      FlatToksFrame(a, b, base, toks[1..], bound);
      match toks[0]
      case Text(u) => if u < bound { FlatFrame(a, b, base, u); }
      case Inner(u) => if u < bound { FlatFrame(a, b, base, u); }
      case _ =>
    }
  }

  lemma {:induction false} FlatScrapsFrame(a: Arena, b: Arena, base: nat, ss: seq<Scrap>, rr: seq<Scrap>)
    requires a.Count() <= b.Count() && |ss| == |rr|
    requires forall u :: base <= u < a.Count() ==> b.TextAt(u) == a.TextAt(u)
    requires forall i :: 0 <= i < |ss| ==> ss[i].trans < a.Count() && rr[i].trans == ss[i].trans
    ensures FlatScraps(b, base, rr) == FlatScraps(a, base, ss)
  {
    if ss != [] {
      FlatFrame(a, b, base, ss[0].trans);
      FlatScrapsFrame(a, b, base, ss[1..], rr[1..]);
    }
  }

  // ---------- leaves kept ----------

  // The leaves, and the < and > that stand in for one.
  function Kept(x: seq<Atom>): seq<Atom> {
    if x == [] then []
    else
      (if x[0].Leaf? || x[0] == Mark(LESS) || x[0] == Mark(GREATER) then [x[0]] else [])
      + Kept(x[1..])
  }

  lemma {:induction false} KeptAppend(x: seq<Atom>, y: seq<Atom>)
    ensures Kept(x + y) == Kept(x) + Kept(y)
  {
    if x == [] {
      assert x + y == y;
    } else {
      KeptAppend(x[1..], y);
      assert (x + y)[1..] == x[1..] + y;
    }
  }

  // ---------- reading in math mode ----------

  // Read x starting in mode m: each $ toggles, each typed leaf and each token that belongs
  // in one mode must be met in that.  None if some atom is met in the wrong mode.
  function Read(x: seq<Atom>, modes: map<nat, Math>, m: Math): Option<Math> {
    if x == [] then Some(m)
    else
      match x[0]
      case Leaf(t) =>
        if t in modes && (modes[t] == Maybe || modes[t] == m) then Read(x[1..], modes, m) else None
      case Mark(tok) =>
        if tok == DOLLAR then Read(x[1..], modes, if m == Yes then No else Yes)
        else if Belongs(tok) != Maybe && Belongs(tok) != m then None
        else Read(x[1..], modes, m)
  }

  lemma {:induction false} ReadAppend(x: seq<Atom>, y: seq<Atom>, modes: map<nat, Math>, m: Math)
    ensures Read(x + y, modes, m) ==
            (match Read(x, modes, m) case None => None case Some(n) => Read(y, modes, n))
  {
    if x == [] {
      assert x + y == y;
    } else {
      assert (x + y)[1..] == x[1..] + y;
      ReadAppend(x[1..], y, modes, if x[0] == Mark(DOLLAR) then (if m == Yes then No else Yes) else m);
    }
  }

  // The mode at place i: each $ before it has changed it.
  function ModeAt(x: seq<Atom>, i: nat, m: Math): Math
    requires i <= |x|
  {
    if i == 0 then m
    else
      var n := ModeAt(x, i - 1, m);
      if x[i - 1] == Mark(DOLLAR) then (if n == Yes then No else Yes) else n
  }

  // Atom x in mode n.
  predicate Fitting(x: Atom, modes: map<nat, Math>, n: Math) {
    match x
    case Leaf(t) => t in modes && (modes[t] == Maybe || modes[t] == n)
    case Mark(tok) => tok == DOLLAR || Belongs(tok) == Maybe || Belongs(tok) == n
  }

  lemma {:induction false} ModeAtTail(x: seq<Atom>, i: nat, m: Math)
    requires 1 <= i <= |x|
    ensures ModeAt(x, i, m) == ModeAt(x[1..], i - 1, ModeAt(x, 1, m))
  {
    if i > 1 { ModeAtTail(x, i - 1, m); }
  }

  // What it is to be readable: every atom is met in a mode that it fits.
  lemma {:induction false} ReadMeans(x: seq<Atom>, modes: map<nat, Math>, m: Math)
    ensures Read(x, modes, m).Some? <==> forall i :: 0 <= i < |x| ==> Fitting(x[i], modes, ModeAt(x, i, m))
    ensures Read(x, modes, m).Some? ==> Read(x, modes, m).value == ModeAt(x, |x|, m)
  {
    if x != [] {
      var n := ModeAt(x, 1, m);
      ReadMeans(x[1..], modes, n);
      forall i | 1 <= i <= |x|
        ensures ModeAt(x, i, m) == ModeAt(x[1..], i - 1, n)
      {
        ModeAtTail(x, i, m);
      }
      if Fitting(x[0], modes, m) {
        assert ModeAt(x, 0, m) == m;
        assert Read(x, modes, m) == Read(x[1..], modes, n);
        TailFits(x, modes, m, n);
      } else {
        assert ModeAt(x, 0, m) == m;
        assert Read(x, modes, m) == None;
      }
    }
  }

  lemma TailFits(x: seq<Atom>, modes: map<nat, Math>, m: Math, n: Math)
    requires x != [] && Fitting(x[0], modes, m)
    requires forall i :: 1 <= i <= |x| ==> ModeAt(x, i, m) == ModeAt(x[1..], i - 1, n)
    ensures (forall i :: 0 <= i < |x| ==> Fitting(x[i], modes, ModeAt(x, i, m)))
       <==> (forall i :: 0 <= i < |x[1..]| ==> Fitting(x[1..][i], modes, ModeAt(x[1..], i, n)))
  {
    if forall i :: 0 <= i < |x[1..]| ==> Fitting(x[1..][i], modes, ModeAt(x[1..], i, n)) {
      forall i | 0 <= i < |x|
        ensures Fitting(x[i], modes, ModeAt(x, i, m))
      {
        if i > 0 { assert Fitting(x[1..][i - 1], modes, ModeAt(x[1..], i - 1, n)); }
      }
    } else {
      var i :| 0 <= i < |x[1..]| && !Fitting(x[1..][i], modes, ModeAt(x[1..], i, n));
      assert !Fitting(x[i + 1], modes, ModeAt(x, i + 1, m));
    }
  }
}
