// The piles of names on the sorting stack: what holds of them whenever one is dealt out.
module IndexPiles {
  import opened IndexOrder

  const INFINITY: nat := 255

  // Names whose first depth bytes have the same places; at depth INFINITY all of them.
  datatype Pile = Pile(depth: nat, members: seq<nat>)

  ghost predicate Valid(names: seq<seq<nat>>, x: nat) { x < |names| && NameOk(names[x]) }

  ghost predicate Alike(names: seq<seq<nat>>, x: nat, y: nat, depth: nat) {
    x < |names| && y < |names|
    && if depth == INFINITY then Same(names[x], names[y]) else Agree(names[x], names[y], depth)
  }

  ghost predicate PileOk(names: seq<seq<nat>>, p: Pile) {
    && p.members != []
    && (forall x :: x in p.members ==> Valid(names, x) && (p.depth != INFINITY ==> p.depth <= |names[x]|))
    && (forall x, y :: x in p.members && y in p.members ==> Alike(names, x, y, p.depth))
  }

  ghost predicate Precedes(names: seq<seq<nat>>, x: nat, y: nat) {
    x < |names| && y < |names| && Before(names[x], names[y])
  }

  // Whatever is in p comes before whatever is in q.
  ghost predicate Above(names: seq<seq<nat>>, p: Pile, q: Pile) {
    forall x, y :: x in p.members && y in q.members ==> Precedes(names, x, y)
  }

  // The pile on top has the names that come first.
  ghost predicate Stacked(names: seq<seq<nat>>, piles: seq<Pile>) {
    && (forall i :: 0 <= i < |piles| ==> PileOk(names, piles[i]))
    && (forall i, j :: 0 <= i < j < |piles| ==> Above(names, piles[j], piles[i]))
  }

  ghost predicate InOrder(names: seq<seq<nat>>, out: seq<nat>) {
    && (forall i :: 0 <= i < |out| ==> Valid(names, out[i]))
    && (forall i, j :: 0 <= i < j < |out| ==> LexLe(names[out[i]], names[out[j]]))
  }

  // What has been put out comes before what is still on the stack.
  ghost predicate Done(names: seq<seq<nat>>, out: seq<nat>, piles: seq<Pile>) {
    forall i, k, y :: 0 <= i < |out| && 0 <= k < |piles| && y in piles[k].members ==> Precedes(names, out[i], y)
  }

  // ---------- dealing a pile out by the next byte ----------

  // The pile of those of s that have place c at depth d.
  ghost predicate DealtPile(names: seq<seq<nat>>, s: seq<nat>, d: nat, p: Pile, c: nat) {
    && p.depth == (if c == 0 then INFINITY else d + 1) && p.members != []
    && forall x :: x in p.members ==> x in s && x < |names| && KeyAt(names[x], d) == c
  }

  // The new piles, the last byte at the bottom.
  ghost predicate Dealt(names: seq<seq<nat>>, s: seq<nat>, d: nat, piles: seq<Pile>, classes: seq<nat>) {
    && |classes| == |piles|
    && (forall k :: 0 <= k < |piles| ==> DealtPile(names, s, d, piles[k], classes[k]))
    && (forall i, j :: 0 <= i < j < |piles| ==> classes[j] < classes[i])
  }

  lemma KeyPastEnd(a: seq<nat>, d: nat)
    requires NameOk(a)
    ensures KeyAt(a, d) == 0 <==> d >= |a|
  {
    if d < |a| { CollateRank(0, a[d]); }
  }

  // A dealt pile holds alike names again.
  lemma DealtPileOk(names: seq<seq<nat>>, s: seq<nat>, d: nat, p: Pile, c: nat)
    requires PileOk(names, Pile(d, s)) && d < INFINITY - 1 && DealtPile(names, s, d, p, c)
    ensures PileOk(names, p)
  {
    forall x | x in p.members
      ensures Valid(names, x) && (p.depth != INFINITY ==> p.depth <= |names[x]|)
    {
      KeyPastEnd(names[x], d);
    }
    forall x, y | x in p.members && y in p.members
      ensures Alike(names, x, y, p.depth)
    {
      assert Alike(names, x, y, d);
      KeyPastEnd(names[x], d);
      KeyPastEnd(names[y], d);
    }
  }

  lemma DealtAbove(names: seq<seq<nat>>, s: seq<nat>, d: nat, p: Pile, b: nat, q: Pile, c: nat)
    requires PileOk(names, Pile(d, s)) && d < INFINITY && DealtPile(names, s, d, p, b)
             && DealtPile(names, s, d, q, c) && b < c
    ensures Above(names, p, q)
  {
    forall x, y | x in p.members && y in q.members
      ensures Precedes(names, x, y)
    {
      assert Alike(names, x, y, d);
      assert BeforeAt(names[x], names[y], d);
    }
  }

  // Taking the top pile off and putting its parts in its place keeps the stack in order.
  lemma StackedAgain(names: seq<seq<nat>>, low: seq<Pile>, s: seq<nat>, d: nat, parts: seq<Pile>, classes: seq<nat>)
    requires Stacked(names, low + [Pile(d, s)]) && d < INFINITY - 1 && Dealt(names, s, d, parts, classes)
    ensures Stacked(names, low + parts)
  {
    var was, now := low + [Pile(d, s)], low + parts;
    assert was[|low|] == Pile(d, s);
    forall i | 0 <= i < |now|
      ensures PileOk(names, now[i])
    {
      if i < |low| { assert now[i] == was[i]; } else { DealtPileOk(names, s, d, parts[i - |low|], classes[i - |low|]); }
    }
    forall i, j | 0 <= i < j < |now|
      ensures Above(names, now[j], now[i])
    {
      if j < |low| {
        assert now[i] == was[i] && now[j] == was[j];
      } else if i < |low| {
        assert now[i] == was[i] && Above(names, was[|low|], was[i]);
        PartAbove(names, s, d, parts[j - |low|], classes[j - |low|], now[i]);
      } else {
        DealtAbove(names, s, d, parts[j - |low|], classes[j - |low|], parts[i - |low|], classes[i - |low|]);
      }
    }
  }

  lemma PartAbove(names: seq<seq<nat>>, s: seq<nat>, d: nat, p: Pile, c: nat, q: Pile)
    requires DealtPile(names, s, d, p, c) && Above(names, Pile(d, s), q)
    ensures Above(names, p, q)
  {
  }

  // What was put out still comes before all that is left.
  lemma DoneAgain(names: seq<seq<nat>>, out: seq<nat>, low: seq<Pile>, s: seq<nat>, d: nat, parts: seq<Pile>,
                  classes: seq<nat>)
    requires Done(names, out, low + [Pile(d, s)]) && Dealt(names, s, d, parts, classes)
    ensures Done(names, out, low + parts)
  {
    var was, now := low + [Pile(d, s)], low + parts;
    assert was[|low|] == Pile(d, s);
    forall i, k, y | 0 <= i < |out| && 0 <= k < |now| && y in now[k].members
      ensures Precedes(names, out[i], y)
    {
      if k < |low| {
        assert now[k] == was[k];
      } else {
        assert DealtPile(names, s, d, parts[k - |low|], classes[k - |low|]);
        assert y in was[|low|].members;
      }
    }
  }

  // ---------- putting the top pile out ----------

  lemma PutOut(names: seq<seq<nat>>, out: seq<nat>, low: seq<Pile>, p: Pile)
    requires Stacked(names, low + [p]) && Done(names, out, low + [p]) && InOrder(names, out)
    requires p.depth == INFINITY || |p.members| == 1
    ensures Stacked(names, low) && Done(names, out + p.members, low) && InOrder(names, out + p.members)
  {
    var was, now := low + [p], out + p.members;
    assert was[|low|] == p;
    forall i | 0 <= i < |low|
      ensures PileOk(names, low[i])
    {
      assert was[i] == low[i];
    }
    forall i, j | 0 <= i < j < |low|
      ensures Above(names, low[j], low[i])
    {
      assert was[i] == low[i] && was[j] == low[j];
    }
    forall i, k, y | 0 <= i < |now| && 0 <= k < |low| && y in low[k].members
      ensures Precedes(names, now[i], y)
    {
      assert was[k] == low[k];
      if i >= |out| { assert Above(names, was[|low|], was[k]) && now[i] in p.members; }
    }
    StillInOrder(names, out, p, was);
  }

  lemma StillInOrder(names: seq<seq<nat>>, out: seq<nat>, p: Pile, piles: seq<Pile>)
    requires InOrder(names, out) && PileOk(names, p) && Done(names, out, piles)
    requires piles != [] && piles[|piles| - 1] == p
    requires p.depth == INFINITY || |p.members| == 1
    ensures InOrder(names, out + p.members)
  {
    var now := out + p.members;
    forall i | 0 <= i < |now|
      ensures Valid(names, now[i])
    {
      if i >= |out| { assert now[i] in p.members; }
    }
    forall i, j | 0 <= i < j < |now|
      ensures LexLe(names[now[i]], names[now[j]])
    {
      if j >= |out| {
        assert now[j] in p.members;
        if i >= |out| { assert now[i] in p.members && Alike(names, now[i], now[j], p.depth); }
        BeforeIsLe(names[now[i]], names[now[j]]);
      }
    }
  }
}
