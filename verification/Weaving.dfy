// Putting texts out: CWEAVE walks from text to text with a stack of places to return to, and
// tells for every token whether it belongs to C text in the middle of a comment.
module Weaving {
  import opened Wrappers
  import opened Scraps
  import opened Meaning
  import opened Translate
  import opened Conservation
  import opened Runs
  import opened Productions
  import opened Formatter
  import opened Paths

  const STACK_SIZE: nat := 400
  const END := Ch(147)

  // A token put out, within an inner text or not.
  datatype Item = Item(tok: Token, inner: bool)

  // ---------- what is put out ----------

  // The tokens of a text, those of the texts it refers to in their places.  An inner text and
  // all that it refers to are inner.
  function Unfold(a: Arena, toks: seq<Token>, bound: nat, inner: bool): seq<Item>
    decreases bound, 1, |toks|
  {
    if toks == [] then [] else Shown(a, toks[0], bound, inner) + Unfold(a, toks[1..], bound, inner)
  }

  function Shown(a: Arena, tok: Token, bound: nat, inner: bool): seq<Item>
    decreases bound, 0, 0
  {
    match Reference(tok)
    case Some(u) => if u < bound then Unfold(a, a.TextAt(u), u, inner || tok.Inner?) else []
    case None => [Item(tok, inner)]
  }

  // References among toks are nested no deeper than d.
  predicate Nests(a: Arena, toks: seq<Token>, bound: nat, d: nat)
    decreases bound, 1, |toks|
  {
    toks == [] || (NestsOne(a, toks[0], bound, d) && Nests(a, toks[1..], bound, d))
  }

  predicate NestsOne(a: Arena, tok: Token, bound: nat, d: nat)
    decreases bound, 0, 0
  {
    match Reference(tok)
    case Some(u) => u < bound ==> d > 0 && Nests(a, a.TextAt(u), u, d - 1)
    case None => true
  }

  // How many turns it takes to put toks out.
  ghost function Work(a: Arena, toks: seq<Token>, bound: nat): nat
    decreases bound, 1, |toks|
  {
    if toks == [] then 1 else WorkOne(a, toks[0], bound) + Work(a, toks[1..], bound)
  }

  ghost function WorkOne(a: Arena, tok: Token, bound: nat): nat
    decreases bound, 0, 0
  {
    match Reference(tok)
    case Some(u) => if u < bound then 1 + Work(a, a.TextAt(u), u) else 1
    case None => 1
  }

  lemma {:induction false} UnfoldAppend(a: Arena, x: seq<Token>, y: seq<Token>, bound: nat, inner: bool)
    ensures Unfold(a, x + y, bound, inner) == Unfold(a, x, bound, inner) + Unfold(a, y, bound, inner)
    decreases |x|
  {
    if x == [] {
      assert x + y == y;
    } else {
      UnfoldAppend(a, x[1..], y, bound, inner);
      assert (x + y)[1..] == x[1..] + y && (x + y)[0] == x[0];
      Associative(Shown(a, x[0], bound, inner), Unfold(a, x[1..], bound, inner), Unfold(a, y, bound, inner));
    }
  }

  lemma {:induction false} NestsAppend(a: Arena, x: seq<Token>, y: seq<Token>, bound: nat, d: nat)
    ensures Nests(a, x + y, bound, d) <==> Nests(a, x, bound, d) && Nests(a, y, bound, d)
    decreases |x|
  {
    if x == [] {
      assert x + y == y;
    } else {
      NestsAppend(a, x[1..], y, bound, d);
      assert (x + y)[1..] == x[1..] + y && (x + y)[0] == x[0];
    }
  }

  // Closing another text changes nothing of this.
  lemma {:induction false} UnfoldFrame(a: Arena, b: Arena, toks: seq<Token>, bound: nat, inner: bool, d: nat)
    requires forall u :: 0 <= u < bound ==> b.TextAt(u) == a.TextAt(u)
    ensures Unfold(b, toks, bound, inner) == Unfold(a, toks, bound, inner)
    ensures Nests(b, toks, bound, d) == Nests(a, toks, bound, d)
    decreases bound, |toks|
  {
    if toks != [] {
      UnfoldFrame(a, b, toks[1..], bound, inner, d);
      var r := Reference(toks[0]);
      if r.Some? && r.value < bound {
        var u := r.value;
        UnfoldFrame(a, b, a.TextAt(u), u, inner || toks[0].Inner?, if d > 0 then d - 1 else 0);
      }
    }
  }

  // ---------- along the references ----------

  // The items that paths lead to: each token once, inner exactly if the walk began inner or an
  // inner reference is on its path.
  ghost predicate Along(a: Arena, toks: seq<Token>, bound: nat, inner: bool, items: seq<Item>, paths: seq<seq<nat>>) {
    && |items| == |paths|
    && forall k :: 0 <= k < |paths| ==> AlongOne(a, toks, bound, inner, items[k], paths[k])
  }

  ghost predicate AlongOne(a: Arena, toks: seq<Token>, bound: nat, inner: bool, item: Item, path: seq<nat>) {
    && Leads(a, toks, bound, path)
    && item == Item(EndOf(a, toks, bound, path), inner || ByInner(a, toks, bound, path))
  }

  // What is put out is what the paths through the references lead to, in their order.
  lemma {:induction false} UnfoldAlong(a: Arena, toks: seq<Token>, bound: nat, inner: bool, i: nat)
    requires i <= |toks|
    ensures Along(a, toks, bound, inner, Unfold(a, toks[i..], bound, inner), PathsFrom(a, toks, bound, i))
    decreases bound, 1, |toks| - i
  {
    if i < |toks| {
      UnfoldAlong(a, toks, bound, inner, i + 1);
      ShownAlong(a, toks, bound, inner, i);
      assert toks[i..][0] == toks[i] && toks[i..][1..] == toks[i + 1..];
      AlongAppend(a, toks, bound, inner, Shown(a, toks[i], bound, inner), PathsAt(a, toks[i], bound, i),
                  Unfold(a, toks[i + 1..], bound, inner), PathsFrom(a, toks, bound, i + 1));
    }
  }

  lemma AllAlong(a: Arena, toks: seq<Token>, bound: nat, inner: bool)
    ensures Along(a, toks, bound, inner, Unfold(a, toks, bound, inner), PathsFrom(a, toks, bound, 0))
  {
    UnfoldAlong(a, toks, bound, inner, 0);
    assert toks[0..] == toks;
  }

  lemma AlongAppend(a: Arena, toks: seq<Token>, bound: nat, inner: bool, x: seq<Item>, p: seq<seq<nat>>,
                    y: seq<Item>, q: seq<seq<nat>>)
    requires Along(a, toks, bound, inner, x, p) && Along(a, toks, bound, inner, y, q)
    ensures Along(a, toks, bound, inner, x + y, p + q)
  {
  }

  lemma {:induction false} ShownAlong(a: Arena, toks: seq<Token>, bound: nat, inner: bool, i: nat)
    requires i < |toks|
    ensures Along(a, toks, bound, inner, Shown(a, toks[i], bound, inner), PathsAt(a, toks[i], bound, i))
    decreases bound, 0, 0
  {
    var r := Reference(toks[i]);
    if r.Some? && r.value < bound {
      var u, there := r.value, a.TextAt(r.value);
      UnfoldAlong(a, there, u, inner || toks[i].Inner?, 0);
      assert there[0..] == there;
      var items, below := Unfold(a, there, u, inner || toks[i].Inner?), PathsFrom(a, there, u, 0);
      forall k | 0 <= k < |below|
        ensures AlongOne(a, toks, bound, inner, items[k], [i] + below[k])
      {
        assert AlongOne(a, there, u, inner || toks[i].Inner?, items[k], below[k]);
        assert ([i] + below[k])[1..] == below[k];
      }
    }
  }

  // ---------- what is left to be put out ----------

  // The rest of a text; it refers to texts before bound.
  datatype Place = Place(toks: seq<Token>, bound: nat, inner: bool)

  ghost function Rest(a: Arena, places: seq<Place>): seq<Item> {
    if places == [] then []
    else
      var n := |places| - 1;
      Unfold(a, places[n].toks, places[n].bound, places[n].inner) + Rest(a, places[..n])
  }

  ghost function Load(a: Arena, places: seq<Place>): nat {
    if places == [] then 0
    else
      var n := |places| - 1;
      Work(a, places[n].toks, places[n].bound) + Load(a, places[..n])
  }

  // Place i is at level i + 1 of d.
  ghost predicate Roomy(a: Arena, places: seq<Place>, d: nat) {
    forall i :: 0 <= i < |places| ==> i < d && Nests(a, places[i].toks, places[i].bound, d - i - 1)
  }

  lemma TopOf(a: Arena, below: seq<Place>, y: Place, d: nat)
    ensures Rest(a, below + [y]) == Unfold(a, y.toks, y.bound, y.inner) + Rest(a, below)
    ensures Load(a, below + [y]) == Work(a, y.toks, y.bound) + Load(a, below)
    ensures Roomy(a, below + [y], d)
       <==> Roomy(a, below, d) && |below| < d && Nests(a, y.toks, y.bound, d - |below| - 1)
  {
    var places := below + [y];
    assert places[..|below|] == below && places[|below|] == y;
    assert forall i :: 0 <= i < |below| ==> places[i] == below[i];
  }

  datatype Turned = Given(item: Item) | Onward | Overflown

  // What a turn, or several, with d levels of the stack does to what is left.
  ghost predicate Passed(a: Arena, places: seq<Place>, r: Turned, after: seq<Place>, d: nat) {
    if r == Overflown then !Roomy(a, places, d)
    else
      && Rest(a, places) == (if r.Given? then [r.item] else []) + Rest(a, after)
      && Load(a, after) < Load(a, places) && (Roomy(a, after, d) <==> Roomy(a, places, d))
      && (Bottomed(places) ==> Bottomed(after))
  }

  // The walk started from a text that ends with END: it has nothing more to go back to only
  // when it has come to that.
  ghost predicate Bottomed(places: seq<Place>) {
    places != [] ==>
      var toks := places[0].toks;
      if toks == [] then |places| == 1 else toks[|toks| - 1] == END
  }

  // The end of a text.
  lemma Left(a: Arena, below: seq<Place>, y: Place, d: nat)
    requires y.toks == [] && |below| < d
    ensures Passed(a, below + [y], Onward, below, d)
  {
    TopOf(a, below, y, d);
  }

  lemma GoneOne(a: Arena, y: Place, d: nat)
    requires y.toks != [] && Reference(y.toks[0]) == None
    ensures var toks := y.toks[1..];
            && Unfold(a, y.toks, y.bound, y.inner) == [Item(y.toks[0], y.inner)] + Unfold(a, toks, y.bound, y.inner)
            && Work(a, y.toks, y.bound) == 1 + Work(a, toks, y.bound)
            && (Nests(a, y.toks, y.bound, d) <==> Nests(a, toks, y.bound, d))
  {
  }

  // A token that is no reference.
  lemma Gone(a: Arena, below: seq<Place>, y: Place, d: nat)
    requires y.toks != [] && Reference(y.toks[0]) == None && |below| < d
    ensures Passed(a, below + [y], Given(Item(y.toks[0], y.inner)), below + [y.(toks := y.toks[1..])], d)
  {
    var y' := y.(toks := y.toks[1..]);
    TopOf(a, below, y, d);
    TopOf(a, below, y', d);
    GoneOne(a, y, d - |below| - 1);
    Associative([Item(y.toks[0], y.inner)], Unfold(a, y'.toks, y'.bound, y'.inner), Rest(a, below));
  }

  // The same for the loop, which may not have begun; it is not done before a token is found.
  ghost predicate Walked(a: Arena, places: seq<Place>, r: Turned, after: seq<Place>, d: nat) {
    && (Passed(a, places, r, after, d) || (r == Onward && after == places))
    && (r == Onward ==> Rest(a, after) != [] && after != [])
  }

  lemma Passing(a: Arena, places: seq<Place>, before: seq<Place>, r: Turned, after: seq<Place>, d: nat)
    requires Walked(a, places, Onward, before, d) && Passed(a, before, r, after, d)
    ensures Walked(a, places, r, after, d)
    ensures r != Overflown ==> Load(a, after) < Load(a, before)
  {
  }

  // The place after the first token, and the text that this refers to.
  function Past(y: Place): Place
    requires y.toks != []
  { y.(toks := y.toks[1..]) }

  function Into(a: Arena, y: Place): Place
    requires y.toks != [] && Reference(y.toks[0]).Some?
  {
    var u := Reference(y.toks[0]).value;
    Place(a.TextAt(u), u, y.inner || y.toks[0].Inner?)
  }

  // y comes to what y' and, before it, z come to.
  ghost predicate Splits(a: Arena, y: Place, y': Place, z: Place, d: nat) {
    && Unfold(a, y.toks, y.bound, y.inner)
       == Unfold(a, z.toks, z.bound, z.inner) + Unfold(a, y'.toks, y'.bound, y'.inner)
    && Work(a, y.toks, y.bound) == 1 + Work(a, z.toks, z.bound) + Work(a, y'.toks, y'.bound)
    && (Nests(a, y.toks, y.bound, d)
        <==> d > 0 && Nests(a, z.toks, z.bound, d - 1) && Nests(a, y'.toks, y'.bound, d))
    && (y.toks != [] && y.toks[|y.toks| - 1] == END ==> y'.toks != [] && y'.toks[|y'.toks| - 1] == END)
  }

  lemma SplitsHere(a: Arena, y: Place, d: nat)
    requires y.toks != [] && Reference(y.toks[0]).Some? && Reference(y.toks[0]).value < y.bound
    ensures Splits(a, y, Past(y), Into(a, y), d)
  {
  }

  // A reference, with and without a level left for the text.
  lemma Entered(a: Arena, below: seq<Place>, y: Place, d: nat)
    requires y.toks != [] && Reference(y.toks[0]).Some? && Reference(y.toks[0]).value < y.bound && |below| < d
    ensures Passed(a, below + [y], if |below| + 1 < d then Onward else Overflown, below + [Past(y)] + [Into(a, y)], d)
  {
    SplitsHere(a, y, d - |below| - 1);
    EnteredTwo(a, below, y, Past(y), Into(a, y), d);
  }

  lemma EnteredTwo(a: Arena, below: seq<Place>, y: Place, y': Place, z: Place, d: nat)
    requires |below| < d && y.toks != [] && Splits(a, y, y', z, d - |below| - 1)
    ensures Passed(a, below + [y], if |below| + 1 < d then Onward else Overflown, below + [y'] + [z], d)
  {
    TopOf(a, below, y, d);
    TopTwo(a, below, y', z, d);
    EnteredRoom(a, below, y, y', z, d);
    EnteredBottom(below, y, y', z);
  }

  lemma EnteredRoom(a: Arena, below: seq<Place>, y: Place, y': Place, z: Place, d: nat)
    requires |below| < d && Splits(a, y, y', z, d - |below| - 1)
    ensures if |below| + 1 < d then Roomy(a, below + [y'] + [z], d) <==> Roomy(a, below + [y], d)
            else !Roomy(a, below + [y], d)
  {
    TopOf(a, below, y, d);
    TopTwo(a, below, y', z, d);
  }

  lemma EnteredBottom(below: seq<Place>, y: Place, y': Place, z: Place)
    requires y.toks != []
    requires y.toks[|y.toks| - 1] == END ==> y'.toks != [] && y'.toks[|y'.toks| - 1] == END
    ensures Bottomed(below + [y]) ==> Bottomed(below + [y'] + [z])
  {
    if below == [] {
      assert (below + [y'] + [z])[0] == y';
    } else {
      assert (below + [y'] + [z])[0] == below[0] && (below + [y])[0] == below[0];
    }
  }

  lemma TopTwo(a: Arena, below: seq<Place>, y: Place, z: Place, d: nat)
    ensures Rest(a, below + [y] + [z])
         == Unfold(a, z.toks, z.bound, z.inner) + Unfold(a, y.toks, y.bound, y.inner) + Rest(a, below)
    ensures Load(a, below + [y] + [z]) == Work(a, z.toks, z.bound) + Work(a, y.toks, y.bound) + Load(a, below)
    ensures Roomy(a, below + [y] + [z], d)
       <==> Roomy(a, below, d) && |below| + 1 < d && Nests(a, y.toks, y.bound, d - |below| - 1)
            && Nests(a, z.toks, z.bound, d - |below| - 2)
  {
    TopOf(a, below, y, d);
    TopOf(a, below + [y], z, d);
    Associative(Unfold(a, z.toks, z.bound, z.inner), Unfold(a, y.toks, y.bound, y.inner), Rest(a, below));
  }

  // ---------- the walk ----------

  predicate NoEnd(items: seq<Item>) { forall i :: 0 <= i < |items| ==> items[i].tok != END }

  // Of what is left at start, up to the end, out has been put out and the rest is left.
  ghost predicate Leading(a: Arena, start: seq<Place>, all: seq<Item>, inner: bool, out: seq<Item>,
                          places: seq<Place>, d: nat) {
    && |out| <= |all| && out + Rest(a, places) == all + [Item(END, inner)]
    && (Roomy(a, places, d) <==> Roomy(a, start, d)) && Bottomed(places)
  }

  // Where the walk stands: on its way, or through, or out of room.
  ghost predicate Standing(a: Arena, start: seq<Place>, all: seq<Item>, inner: bool, more: bool, ok: bool,
                           out: seq<Item>, places: seq<Place>, d: nat) {
    if more then Leading(a, start, all, inner, out, places, d) else ok == Roomy(a, start, d) && (ok ==> out == all)
  }

  lemma StandsOn(a: Arena, start: seq<Place>, all: seq<Item>, inner: bool, out: seq<Item>, before: seq<Place>,
                 r: Option<Item>, after: seq<Place>, d: nat)
    requires Standing(a, start, all, inner, true, true, out, before, d) && NoEnd(all)
    requires Passed(a, before, if r.Some? then Given(r.value) else Overflown, after, d) && (r.Some? ==> d > 0)
    ensures var more := r.Some? && r.value.tok != END;
            && Standing(a, start, all, inner, more, r.Some?, if more then out + [r.value] else out, after, d)
            && (more ==> Load(a, after) < Load(a, before))
  {
    if r.Some? { WalksOn(a, start, all, inner, out, before, r.value, after, d); }
  }

  lemma LeadsAtFirst(a: Arena, start: seq<Place>, all: seq<Item>, inner: bool, d: nat)
    requires Rest(a, start) == all + [Item(END, inner)] && Bottomed(start)
    ensures Leading(a, start, all, inner, [], start, d)
  {
  }

  lemma WalksOn(a: Arena, start: seq<Place>, all: seq<Item>, inner: bool, out: seq<Item>, before: seq<Place>,
                item: Item, after: seq<Place>, d: nat)
    requires Leading(a, start, all, inner, out, before, d) && NoEnd(all) && d > 0
    requires Passed(a, before, Given(item), after, d)
    ensures if item.tok == END then out == all && Roomy(a, start, d)
            else Leading(a, start, all, inner, out + [item], after, d)
  {
    var x := all + [Item(END, inner)];
    Associative(out, [item], Rest(a, after));
    assert x == out + [item] + Rest(a, after);
    assert x[|out|] == (out + [item])[|out|];
    if item.tok == END {
      assert |out| == |all|;
      assert out == x[..|all|] == all;
      assert Rest(a, after) == [];
      AllDone(a, after, d);
    } else {
      assert |out| < |all|;
    }
  }

  // With nothing left there is room for it.
  lemma AllDone(a: Arena, places: seq<Place>, d: nat)
    requires Rest(a, places) == [] && Bottomed(places) && d > 0
    ensures Roomy(a, places, d)
  {
    if places != [] && places[0].toks != [] { EndToCome(a, places); }
  }

  lemma {:induction false} EndToCome(a: Arena, places: seq<Place>)
    requires places != [] && places[0].toks != [] && places[0].toks[|places[0].toks| - 1] == END
    ensures Rest(a, places) != []
  {
    var n := |places| - 1;
    if n > 0 {
      EndToCome(a, places[..n]);
    } else {
      var toks := places[0].toks;
      UnfoldAppend(a, toks[..|toks| - 1], [END], places[0].bound, places[0].inner);
      assert toks == toks[..|toks| - 1] + [END];
      assert Shown(a, END, places[0].bound, places[0].inner) == [Item(END, places[0].inner)];
    }
  }

  // Putting out a text just completed.
  lemma FromTheTop(a: Arena, b: Arena, toks: seq<Token>, t: nat, inner: bool, d: nat)
    requires a.Valid() && t == a.Count() && RefsBelow(toks, t) && a.Free() + |toks| < |a.mem|
    requires b == a.Append(toks + [END]) && d > 0
    ensures b.TextAt(t) == toks + [END]
    ensures var y := Place(toks + [END], t, inner);
            && Rest(b, [y]) == Unfold(a, toks, t, inner) + [Item(END, inner)]
            && (Roomy(b, [y], d) <==> Nests(a, toks, t, d - 1))
            && Bottomed([y])
  {
    var y := Place(toks + [END], t, inner);
    AppendKeepsTexts(a, toks + [END]);
    UnfoldFrame(a, b, toks, t, inner, d - 1);
    UnfoldAppend(b, toks, [END], t, inner);
    NestsAppend(b, toks, [END], t, d - 1);
    assert Shown(b, END, t, inner) == [Item(END, inner)];
    assert Unfold(b, [END], t, inner) == [Item(END, inner)];
    assert [] + [y] == [y];
    TopOf(b, [], y, d);
  }

  datatype Frame = Frame(tok: nat, end: nat, inner: bool)

  class Weaver {
    const mem: TokenMemory
    const stack: array<Frame>
    var stackPtr: nat
    var cur: Frame

    constructor (mem: TokenMemory)
      ensures this.mem == mem && fresh(stack) && stack.Length == STACK_SIZE && stackPtr == 0 && !cur.inner
    {
      this.mem := mem;
      stack := new Frame[STACK_SIZE](_ => Frame(0, 0, false));
      stackPtr, cur := 0, Frame(0, 0, false);
    }

    // Memory holds the texts of a.
    ghost predicate Holding(a: Arena)
      reads mem, mem.tokMem, mem.tokStart
    {
      mem.Open() && a == mem.Arena() && a.Valid()
    }

    // Frame f is at place y of memory.
    ghost predicate At(f: Frame, y: Place)
      reads mem, mem.tokMem
    {
      && f.tok <= f.end <= mem.tokMem.Length && mem.tokMem[f.tok..f.end] == y.toks
      && f.inner == y.inner && RefsBelow(y.toks, y.bound) && y.bound <= mem.textPtr
    }

    // The walk is at these places, the last one current, on top of s0 levels of the stack.
    ghost predicate Places(s0: nat, places: seq<Place>)
      reads this, stack, mem, mem.tokMem
    {
      && stack.Length == STACK_SIZE && s0 + |places| == stackPtr < STACK_SIZE
      && (places != [] ==> At(cur, places[|places| - 1]))
      && forall i :: 0 <= i < |places| - 1 ==> At(stack[s0 + i + 1], places[i])
    }

    // push_level
    method PushLevel(t: nat, ghost s0: nat, ghost places: seq<Place>) returns (ok: bool)
      requires mem.Open() && mem.Arena().Valid() && t < mem.textPtr && Places(s0, places)
      modifies this`stackPtr, this`cur, stack
      ensures ok == (s0 + |places| + 1 < STACK_SIZE)
      ensures ok ==> Places(s0, places + [Place(mem.Arena().TextAt(t), t, old(cur.inner))])
    {
      if stackPtr == STACK_SIZE - 1 { return false; }
      if stackPtr > 0 { stack[stackPtr] := cur; }
      stackPtr := stackPtr + 1;
      assert mem.Arena().Placed(t);
      cur := cur.(tok := mem.tokStart[t], end := mem.tokStart[t + 1]);
      return true;
    }

    // pop_level
    method PopLevel(ghost s0: nat, ghost below: seq<Place>, ghost y: Place)
      requires Places(s0, below + [y])
      modifies this`stackPtr, this`cur
      ensures Places(s0, below)
    {
      stackPtr := stackPtr - 1;
      cur := stack[stackPtr];
      assert forall i :: 0 <= i < |below| ==> (below + [y])[i] == below[i];
    }

    // Read the next token of the current text.
    method NextToken(ghost s0: nat, ghost below: seq<Place>, ghost y: Place) returns (tok: Token)
      requires Places(s0, below + [y]) && y.toks != []
      modifies this`cur
      ensures tok == y.toks[0] && Places(s0, below + [y.(toks := y.toks[1..])]) && cur.inner == old(cur.inner)
    {
      assert (below + [y])[|below|] == y;
      tok := mem.tokMem[cur.tok];
      cur := cur.(tok := cur.tok + 1);
      assert mem.tokMem[cur.tok..cur.end] == y.toks[1..];
      assert forall i :: 0 <= i < |below| ==> (below + [y])[i] == below[i];
    }

    // On to the text that tok refers to.
    method Follow(tok: Token, ghost a: Arena, ghost s0: nat, ghost places: seq<Place>, ghost z: Place)
      returns (ok: bool)
      requires Holding(a) && Places(s0, places)
      requires Reference(tok).Some? && Reference(tok).value < mem.textPtr
      requires var u := Reference(tok).value;
               z == Place(a.TextAt(u), u, cur.inner || tok.Inner?)
      modifies this`stackPtr, this`cur, stack
      ensures ok == (s0 + |places| + 1 < STACK_SIZE)
      ensures ok ==> Places(s0, places + [z])
    {
      ok := PushLevel(Reference(tok).value, s0, places);
      if ok && tok.Inner? { SetInner(s0, places, z); }
    }

    method SetInner(ghost s0: nat, ghost places: seq<Place>, ghost z: Place)
      requires Places(s0, places + [z.(inner := cur.inner)]) && z.inner
      modifies this`cur
      ensures Places(s0, places + [z])
    {
      assert (places + [z.(inner := cur.inner)])[|places|] == z.(inner := cur.inner);
      assert forall i :: 0 <= i < |places| ==> (places + [z.(inner := cur.inner)])[i] == places[i];
      cur := cur.(inner := true);
    }

    // One turn of its loop.
    method Turn(ghost a: Arena, ghost s0: nat, ghost below: seq<Place>, ghost y: Place)
      returns (r: Turned, ghost after: seq<Place>)
      requires Holding(a) && Places(s0, below + [y])
      modifies this`stackPtr, this`cur, stack
      ensures Passed(a, below + [y], r, after, STACK_SIZE - 1 - s0)
      ensures r != Overflown ==> Places(s0, after)
    {
      ghost var d := STACK_SIZE - 1 - s0;
      assert (below + [y])[|below|] == y;
      if cur.tok == cur.end {
        Left(a, below, y, d);
        PopLevel(s0, below, y);
        return Onward, below;
      }
      var inner := cur.inner;
      var tok := NextToken(s0, below, y);
      if Reference(tok).None? {
        Gone(a, below, y, d);
        return Given(Item(tok, inner)), below + [y.(toks := y.toks[1..])];
      }
      r, after := TurnInto(tok, a, s0, below, y, Into(a, y));
    }

    // ... at a reference, which has been read.
    method TurnInto(tok: Token, ghost a: Arena, ghost s0: nat, ghost below: seq<Place>, ghost y: Place, ghost z: Place)
      returns (r: Turned, ghost after: seq<Place>)
      requires Holding(a) && y.toks != [] && tok == y.toks[0] && Places(s0, below + [Past(y)])
      requires Reference(tok).Some? && Reference(tok).value < y.bound <= mem.textPtr
      requires z == Into(a, y) && cur.inner == y.inner
      modifies this`stackPtr, this`cur, stack
      ensures Passed(a, below + [y], r, after, STACK_SIZE - 1 - s0)
      ensures r != Overflown ==> Places(s0, after)
    {
      Entered(a, below, y, STACK_SIZE - 1 - s0);
      var ok := Follow(tok, a, s0, below + [Past(y)], z);
      r, after := if ok then Onward else Overflown, below + [Past(y)] + [z];
    }

    // make_output, as far as it walks through the text just completed: everything up to the end,
    // if the stack has room for it.
    method MakeOutput() returns (ok: bool, out: seq<Item>)
      requires mem.Open() && mem.Arena().Valid() && stack.Length == STACK_SIZE && stackPtr < STACK_SIZE
      requires RefsBelow(mem.Pen().out, mem.textPtr)
      requires NoEnd(Unfold(mem.Arena(), mem.Pen().out, mem.textPtr, cur.inner))
      modifies this`stackPtr, this`cur, stack, mem`tokPtr, mem`textPtr, mem.tokMem, mem.tokStart
      ensures var a, toks, n := old(mem.Arena()), old(mem.Pen().out), old(mem.textPtr);
              && ok == (old(mem.tokPtr) < mem.tokMem.Length && n + 1 < mem.tokStart.Length
                        && old(stackPtr) + 1 < STACK_SIZE && Nests(a, toks, n, STACK_SIZE - 2 - old(stackPtr)))
              && (ok ==> out == Unfold(a, toks, n, old(cur.inner)))
              && (ok ==> Along(a, toks, n, old(cur.inner), out, PathsFrom(a, toks, n, 0)))
    {
      ghost var a, toks, inner, s0 := mem.Arena(), mem.Pen().out, cur.inner, stackPtr;
      out := [];
      var t := mem.textPtr;
      ok := CloseText(a, toks);
      if !ok { return; }
      ghost var b := mem.Arena();
      ok := PushLevel(t, s0, []);
      if !ok { return; }
      ghost var y := Place(toks + [END], t, inner);
      assert [] + [y] == [y];
      FromTheTop(a, b, toks, t, inner, STACK_SIZE - 1 - s0);
      ok, out := Walk(b, s0, [y], Unfold(a, toks, t, inner), inner);
      AllAlong(a, toks, t, inner);
    }

    // END, and the text is complete.
    method CloseText(ghost a: Arena, ghost toks: seq<Token>) returns (ok: bool)
      requires mem.Open() && a == mem.Arena() && a.Valid() && toks == mem.Pen().out && RefsBelow(toks, mem.textPtr)
      modifies mem`tokPtr, mem`textPtr, mem.tokMem, mem.tokStart
      ensures ok == (old(mem.tokPtr) < mem.tokMem.Length && old(mem.textPtr) + 1 < mem.tokStart.Length)
      ensures ok ==>
                && mem.Open() && mem.textPtr == old(mem.textPtr) + 1 && mem.Arena().Valid()
                && a.Free() + |toks| < |a.mem| && mem.Arena() == a.Append(toks + [END])
    {
      ok := mem.App(END);
      if !ok { return; }
      if mem.textPtr + 1 == mem.tokStart.Length { return false; }
      ghost var m := mem.tokMem[..];
      mem.FreezeText();
      LaidAppend(a, toks + [END], m, mem.tokPtr);
      AppendKeepsTexts(a, toks + [END]);
      assert mem.Arena() == a.Append(toks + [END]);
    }

    // Everything up to the end.
    method Walk(ghost a: Arena, ghost s0: nat, ghost start: seq<Place>, ghost all: seq<Item>, ghost inner: bool)
      returns (ok: bool, out: seq<Item>)
      requires Holding(a) && Places(s0, start)
      requires Rest(a, start) == all + [Item(END, inner)] && NoEnd(all) && Bottomed(start)
      modifies this`stackPtr, this`cur, stack
      ensures ok == Roomy(a, start, STACK_SIZE - 1 - s0)
      ensures ok ==> out == all
    {
      ghost var places := start;
      ok, out := true, [];
      LeadsAtFirst(a, start, all, inner, STACK_SIZE - 1 - s0);
      var more := true;
      while more
        invariant Stands(a, s0, start, all, inner, more, ok, out, places)
        invariant more ==> ok
        decreases more, Load(a, places)
      {
        more, ok, out, places := WalkOn(a, s0, start, all, inner, out, places);
      }
    }

    ghost predicate Stands(a: Arena, s0: nat, start: seq<Place>, all: seq<Item>, inner: bool, more: bool, ok: bool,
                           out: seq<Item>, places: seq<Place>)
      reads this, stack, mem, mem.tokMem
    {
      && s0 < STACK_SIZE && (more ==> Places(s0, places))
      && Standing(a, start, all, inner, more, ok, out, places, STACK_SIZE - 1 - s0)
    }

    method WalkOn(ghost a: Arena, ghost s0: nat, ghost start: seq<Place>, ghost all: seq<Item>, ghost inner: bool,
                  out: seq<Item>, ghost places: seq<Place>)
      returns (more: bool, ok: bool, out': seq<Item>, ghost after: seq<Place>)
      requires Holding(a) && NoEnd(all) && Stands(a, s0, start, all, inner, true, true, out, places)
      modifies this`stackPtr, this`cur, stack
      ensures Stands(a, s0, start, all, inner, more, ok, out', after)
      ensures more ==> ok && Load(a, after) < Load(a, places)
    {
      var r;
      r, after := GetOutput(a, s0, places);
      ok, more, out' := r.Some?, r.Some? && r.value.tok != END, out;
      if more { out' := out + [r.value]; }
      StandsOn(a, start, all, inner, out, places, r, after, STACK_SIZE - 1 - s0);
    }

    // get_output: the next token that is no reference, or nothing if the stack overflows.
    method GetOutput(ghost a: Arena, ghost s0: nat, ghost places: seq<Place>)
      returns (r: Option<Item>, ghost after: seq<Place>)
      requires Holding(a) && Places(s0, places) && Rest(a, places) != []
      modifies this`stackPtr, this`cur, stack
      ensures Passed(a, places, if r.Some? then Given(r.value) else Overflown, after, STACK_SIZE - 1 - s0)
      ensures r.Some? ==> Places(s0, after)
    {
      ghost var d := STACK_SIZE - 1 - s0;
      var t := Onward;
      after := places;
      while t == Onward
        invariant t != Overflown ==> Places(s0, after)
        invariant Walked(a, places, t, after, d)
        decreases t == Onward, Load(a, after)
      {
        ghost var before := after;
        t, after := TurnTop(a, s0, before);
        Passing(a, places, before, t, after, d);
      }
      r := if t.Given? then Some(t.item) else None;
    }

    method TurnTop(ghost a: Arena, ghost s0: nat, ghost places: seq<Place>) returns (r: Turned, ghost after: seq<Place>)
      requires Holding(a) && Places(s0, places) && places != []
      modifies this`stackPtr, this`cur, stack
      ensures Passed(a, places, r, after, STACK_SIZE - 1 - s0)
      ensures r != Overflown ==> Places(s0, after)
    {
      ghost var n := |places| - 1;
      assert places == places[..n] + [places[n]];
      r, after := Turn(a, s0, places[..n], places[n]);
    }
  }

  // ---------- what is put out of a text that the formatter built ----------

  // The leaves put out, and the tokens between them as they are.
  function Woven(a: Arena, x: seq<Atom>, inner: bool): seq<Item> {
    if x == [] then []
    else
      (match x[0]
       case Leaf(t) => Unfold(a, a.TextAt(t), t, inner)
       case Mark(tok) => [Item(tok, inner)])
      + Woven(a, x[1..], inner)
  }

  lemma {:induction false} WovenAppend(a: Arena, x: seq<Atom>, y: seq<Atom>, inner: bool)
    ensures Woven(a, x + y, inner) == Woven(a, x, inner) + Woven(a, y, inner)
    decreases |x|
  {
    if x == [] {
      assert x + y == y;
    } else {
      WovenAppend(a, x[1..], y, inner);
      assert (x + y)[1..] == x[1..] + y && (x + y)[0] == x[0];
    }
  }

  lemma {:induction false} UnfoldFlat(a: Arena, base: nat, toks: seq<Token>, bound: nat, inner: bool)
    requires Shape(a, base) && BuiltToks(toks) && RefsBelow(toks, bound) && bound <= a.Count()
    ensures Unfold(a, toks, bound, inner) == Woven(a, FlatToks(a, base, toks, bound), inner)
    decreases bound, 1, |toks|
  {
    if toks != [] {
      assert RefBelow(toks[0], bound);
      ShownFlat(a, base, toks[0], bound, inner);
      assert RefsBelow(toks[1..], bound) && BuiltToks(toks[1..]);
      UnfoldFlat(a, base, toks[1..], bound, inner);
      WovenAppend(a, Meaning.Expand(a, base, toks[0], bound), FlatToks(a, base, toks[1..], bound), inner);
    }
  }

  lemma {:induction false} ShownFlat(a: Arena, base: nat, tok: Token, bound: nat, inner: bool)
    requires Shape(a, base) && (tok.Ch? || tok.Text?) && RefBelow(tok, bound) && bound <= a.Count()
    ensures Shown(a, tok, bound, inner) == Woven(a, Meaning.Expand(a, base, tok, bound), inner)
    decreases bound, 0, 0
  {
    if tok.Text? {
      var u := tok.text;
      assert a.Placed(u);
      if u >= base { UnfoldFlat(a, base, a.TextAt(u), u, inner); }
    }
  }

  // What is put out of the text that translate returns: the leaves that it is about, one after
  // the other, with nothing but formatting tokens between them.
  lemma TranslationWoven(a: Arena, ss: seq<Scrap>, setup: Setup, inner: bool)
    requires Input(a, ss) && SoundTable(setup.table)
    ensures Ready(Start(a, ss))
    ensures Translation(a, ss, setup).Some? ==>
              var (b, t) := Translation(a, ss, setup).value;
              Unfold(b, [Text(t)], b.Count(), inner) == Woven(b, Flat(b, a.Count(), t), inner)
  {
    TranslationCorrect(a, ss, setup);
    if Translation(a, ss, setup).Some? {
      var (b, t) := Translation(a, ss, setup).value;
      ShownFlat(b, a.Count(), Text(t), b.Count(), inner);
      assert Unfold(b, [Text(t)], b.Count(), inner) == Shown(b, Text(t), b.Count(), inner) + [];
    }
  }
}
