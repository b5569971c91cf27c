// Sorting the index with linked lists: a bucket for every byte, a stack of lists, and the
// links of the names in one array.
module IndexSort {
  import opened Wrappers
  import opened IndexOrder
  import opened IndexPiles
  import opened LinkedLists

  // Where each name is.
  datatype Owner = Nowhere | Loose | InBucket(b: nat) | OnStack(i: nat) | PutOut

  // s has the names of o, each once.
  ghost predicate Held(owner: seq<Owner>, s: seq<nat>, o: Owner) {
    && Distinct(s) && (forall x :: x in s ==> x < |owner|)
    && forall x: nat :: x < |owner| ==> (x in s <==> owner[x] == o)
  }

  lemma HeldElsewhere(owner: seq<Owner>, s: seq<nat>, o: Owner, x: nat, p: Owner)
    requires Held(owner, s, o) && x < |owner| && owner[x] != o && p != o
    ensures Held(owner[x := p], s, o) && x !in s
  {
  }

  lemma HeldPushed(owner: seq<Owner>, s: seq<nat>, o: Owner, x: nat)
    requires Held(owner, s, o) && x < |owner| && owner[x] != o
    ensures Held(owner[x := o], [x] + s, o)
  {
    assert x !in s;
    assert forall i :: 0 <= i < |s| ==> s[i] in s;
    assert forall y :: y in [x] + s <==> y == x || y in s;
  }

  lemma HeldAppended(owner: seq<Owner>, s: seq<nat>, o: Owner, x: nat)
    requires Held(owner, s, o) && x < |owner| && owner[x] != o
    ensures Held(owner[x := o], s + [x], o)
  {
    assert x !in s;
    assert forall i :: 0 <= i < |s| ==> s[i] in s;
    assert forall y :: y in s + [x] <==> y == x || y in s;
  }

  lemma HeldTail(owner: seq<Owner>, s: seq<nat>, o: Owner, p: Owner)
    requires Held(owner, s, o) && s != [] && p != o
    ensures s[0] < |owner| && Held(owner[s[0] := p], s[1..], o)
  {
    assert s[0] in s;
    assert s == [s[0]] + s[1..];
    assert s[0] !in s[1..];
    assert forall y :: y in s <==> y == s[0] || y in s[1..];
  }

  ghost predicate BucketsOk(bl: seq<nat>, heads: seq<nat>, buckets: seq<seq<nat>>, owner: seq<Owner>) {
    && |heads| == |buckets| == 256
    && forall b :: 0 <= b < 256 ==> Linked(bl, heads[b], buckets[b]) && Held(owner, buckets[b], InBucket(b))
  }

  datatype Entry = Entry(depth: nat, head: nat)

  ghost predicate StackOk(bl: seq<nat>, stack: seq<Entry>, piles: seq<Pile>, owner: seq<Owner>) {
    && |stack| == |piles|
    && forall i :: 0 <= i < |piles| ==>
         stack[i].depth == piles[i].depth && Linked(bl, stack[i].head, piles[i].members)
         && Held(owner, piles[i].members, OnStack(i))
  }

  // No name is at a place of the stack that is not there.
  ghost predicate Within(owner: seq<Owner>, piles: nat) {
    forall x :: 0 <= x < |owner| ==>
      (owner[x].OnStack? ==> owner[x].i < piles) && (owner[x].InBucket? ==> owner[x].b < 256)
  }

  lemma NoneHeld(owner: seq<Owner>, o: Owner, x: nat)
    requires Held(owner, [], o) && x < |owner|
    ensures owner[x] != o
  {
    assert x !in [];
  }

  lemma NotInBucket(bl: seq<nat>, heads: seq<nat>, buckets: seq<seq<nat>>, owner: seq<Owner>, piles: nat, x: nat)
    requires BucketsOk(bl, heads, buckets, owner) && AllEmpty(buckets) && Within(owner, piles) && x < |owner|
    ensures !owner[x].InBucket?
  {
  }

  // One name moved from where it is loose to the front of bucket b.
  lemma DealtOne(bl: seq<nat>, heads: seq<nat>, buckets: seq<seq<nat>>, owner: seq<Owner>, x: nat, b: nat)
    requires BucketsOk(bl, heads, buckets, owner) && 1 <= x < |bl| == |owner| && owner[x] == Loose && b < 256
    ensures BucketsOk(bl[x := heads[b]], heads[b := x], buckets[b := [x] + buckets[b]], owner[x := InBucket(b)])
  {
    var bl', heads', buckets', owner' := bl[x := heads[b]], heads[b := x], buckets[b := [x] + buckets[b]],
      owner[x := InBucket(b)];
    forall c | 0 <= c < 256
      ensures Linked(bl', heads'[c], buckets'[c]) && Held(owner', buckets'[c], InBucket(c))
    {
      if c == b {
        HeldPushed(owner, buckets[b], InBucket(b), x);
        LinkedPushed(bl, heads[b], buckets[b], x);
      } else {
        HeldElsewhere(owner, buckets[c], InBucket(c), x, InBucket(b));
        LinkedElsewhere(bl, heads[c], buckets[c], x, heads[b]);
      }
    }
  }

  lemma StackUntouched(bl: seq<nat>, stack: seq<Entry>, piles: seq<Pile>, owner: seq<Owner>, x: nat, v: nat, o: Owner)
    requires StackOk(bl, stack, piles, owner) && x < |bl| == |owner| && !owner[x].OnStack? && !o.OnStack?
    ensures StackOk(bl[x := v], stack, piles, owner[x := o])
  {
    forall i | 0 <= i < |piles|
      ensures Linked(bl[x := v], stack[i].head, piles[i].members) && Held(owner[x := o], piles[i].members, OnStack(i))
    {
      HeldElsewhere(owner, piles[i].members, OnStack(i), x, o);
      LinkedElsewhere(bl, stack[i].head, piles[i].members, x, v);
    }
  }

  // All names of a list given another owner.
  function Reowned(owner: seq<Owner>, s: seq<nat>, o: Owner): seq<Owner> {
    seq(|owner|, x requires 0 <= x < |owner| => if x in s then o else owner[x])
  }

  lemma ReownedHeld(owner: seq<Owner>, s: seq<nat>, o: Owner, p: Owner)
    requires Held(owner, s, o) && forall x :: 0 <= x < |owner| ==> owner[x] != p
    ensures Held(Reowned(owner, s, p), s, p)
  {
  }

  lemma ReownedElsewhere(owner: seq<Owner>, s: seq<nat>, o: Owner, p: Owner, t: seq<nat>, q: Owner)
    requires Held(owner, s, o) && Held(owner, t, q) && o != q && p != q
    ensures Held(Reowned(owner, s, p), t, q)
  {
  }

  // The place in the index order of byte d of a name, and the bucket it goes to.
  function ByteAt(a: seq<nat>, d: nat): nat { if d < |a| then Fold(a[d]) else 0 }

  lemma BucketOfByte(a: seq<nat>, d: nat)
    requires NameOk(a)
    ensures ByteAt(a, d) < 256 && KeyAt(a, d) <= 228 && Collate(KeyAt(a, d)) == ByteAt(a, d)
  {
    if d < |a| { CollateRank(0, a[d]); }
  }

  // Bucket b holds the names of s that have byte b at depth d.
  ghost predicate Sorted(names: seq<seq<nat>>, s: seq<nat>, d: nat, buckets: seq<seq<nat>>) {
    && |buckets| == 256
    && (forall x :: x in s ==> Valid(names, x))
    && (forall b, x :: 0 <= b < 256 && x in buckets[b] ==> x in s && ByteAt(names[x], d) == b)
  }

  lemma SortedOne(names: seq<seq<nat>>, s: seq<nat>, d: nat, buckets: seq<seq<nat>>, x: nat, b: nat)
    requires Sorted(names, s, d, buckets) && x in s && b < 256 && ByteAt(names[x], d) == b
    ensures Sorted(names, s, d, buckets[b := [x] + buckets[b]])
  {
  }

  // The bucket in the c-th place, made a pile.
  lemma BucketIsPile(names: seq<seq<nat>>, s: seq<nat>, d: nat, buckets: seq<seq<nat>>, c: nat)
    requires Sorted(names, s, d, buckets) && c <= 228 && buckets[Collate(c)] != []
    ensures DealtPile(names, s, d, Pile(if c == 0 then INFINITY else d + 1, buckets[Collate(c)]), c)
  {
    CollateRank(c, 1);
    var b := Collate(c);
    forall x | x in buckets[b]
      ensures x in s && x < |names| && KeyAt(names[x], d) == c
    {
      assert x in s && Valid(names, x);
      BucketOfByte(names[x], d);
      PlaceOfByte(c, KeyAt(names[x], d));
    }
  }

  lemma PlaceOfByte(c: nat, k: nat)
    requires c <= 228 && k <= 228 && Collate(c) == Collate(k)
    ensures c == k
  {
    CollateRank(c, 1);
    CollateRank(k, 1);
  }

  // How much is left to do: every name on the stack is dealt at most once for every depth.
  function Weight(depth: nat): nat { if depth <= INFINITY then INFINITY + 1 - depth else 0 }

  function Work(piles: seq<Pile>): nat {
    if piles == [] then 0
    else Work(piles[..|piles| - 1]) + |piles[|piles| - 1].members| * Weight(piles[|piles| - 1].depth)
  }

  lemma WorkPush(piles: seq<Pile>, p: Pile)
    ensures Work(piles + [p]) == Work(piles) + |p.members| * Weight(p.depth)
  {
    assert (piles + [p])[..|piles|] == piles;
  }

  // How many names are on the stack.
  function Size(piles: seq<Pile>): nat {
    if piles == [] then 0 else Size(piles[..|piles| - 1]) + |piles[|piles| - 1].members|
  }

  lemma SizePush(piles: seq<Pile>, p: Pile)
    ensures Size(piles + [p]) == Size(piles) + |p.members|
  {
    assert (piles + [p])[..|piles|] == piles;
  }

  ghost predicate NoneEmpty(piles: seq<Pile>) { forall i :: 0 <= i < |piles| ==> piles[i].members != [] }

  // No more piles than names.
  lemma {:induction false} FewPiles(piles: seq<Pile>)
    requires NoneEmpty(piles)
    ensures |piles| <= Size(piles)
  {
    if piles != [] { FewPiles(piles[..|piles| - 1]); }
  }

  function Total(lists: seq<seq<nat>>): nat {
    if lists == [] then 0 else |lists[0]| + Total(lists[1..])
  }

  lemma {:induction false} TotalUpdate(lists: seq<seq<nat>>, b: nat, s: seq<nat>)
    requires b < |lists|
    ensures Total(lists[b := s]) == Total(lists) - |lists[b]| + |s|
  {
    if b > 0 {
      assert lists[b := s][1..] == lists[1..][b - 1 := s];
      TotalUpdate(lists[1..], b - 1, s);
    } else {
      assert lists[b := s][1..] == lists[1..];
    }
  }

  ghost predicate AllEmpty(buckets: seq<seq<nat>>) { |buckets| == 256 && forall b :: 0 <= b < 256 ==> buckets[b] == [] }

  lemma {:induction false} TotalEmpty(lists: seq<seq<nat>>)
    requires forall b :: 0 <= b < |lists| ==> lists[b] == []
    ensures Total(lists) == 0
  {
    if lists != [] { TotalEmpty(lists[1..]); }
  }

  // The index entries are the same names as before.
  ghost predicate SameEntries(was: seq<Owner>, now: seq<Owner>) {
    |was| == |now| && forall x :: 0 <= x < |was| ==> (was[x].Nowhere? <==> now[x].Nowhere?)
  }

  lemma SameTwice(a: seq<Owner>, b: seq<Owner>, c: seq<Owner>)
    requires SameEntries(a, b) && SameEntries(b, c)
    ensures SameEntries(a, c)
  {
  }

  class IndexSorter {
    const names: seq<seq<nat>>
    const blink: array<nat>
    const bucket: array<nat>
    const stack: array<Entry>
    var sortPtr: nat
    var index: seq<nat>
    ghost var buckets: seq<seq<nat>>
    ghost var piles: seq<Pile>
    ghost var owner: seq<Owner>

    // The lists are apart from each other and hold what buckets and piles say.
    ghost predicate Lists()
      reads this, blink, bucket, stack
    {
      && |names| == blink.Length == |owner| && bucket.Length == 256 && blink != bucket
      && sortPtr <= stack.Length && |piles| == sortPtr
      && BucketsOk(blink[..], bucket[..], buckets, owner)
      && StackOk(blink[..], stack[..sortPtr], piles, owner) && Within(owner, sortPtr)
      && Held(owner, index, PutOut)
    }

    // Nothing sorted yet; the entries are to be.
    constructor (names: seq<seq<nat>>, stackSize: nat, ghost entries: seq<nat>)
      requires Distinct(entries) && forall x :: x in entries ==> x < |names|
      ensures this.names == names && fresh(blink) && fresh(bucket) && fresh(stack)
      ensures Lists() && AllEmpty(buckets) && piles == [] && index == [] && Held(owner, entries, Loose)
      ensures Entries(entries)
    {
      this.names := names;
      blink := new nat[|names|](_ => 0);
      bucket := new nat[256](_ => 0);
      stack := new Entry[stackSize](_ => Entry(0, 0));
      sortPtr, index := 0, [];
      buckets, piles := seq(256, _ => []), [];
      owner := seq(|names|, x requires 0 <= x < |names| => if x in entries then Loose else Nowhere);
    }

    // The names in the sort are the entries.
    ghost predicate Entries(entries: seq<nat>)
      reads this
    {
      forall x: nat :: x < |owner| ==> (x in entries <==> !owner[x].Nowhere?)
    }

    // The index: every entry once, in order.  A stack that has room for all entries is large
    // enough.
    method Sort(entries: seq<nat>) returns (ok: bool)
      requires Lists() && AllEmpty(buckets) && piles == [] && index == [] && Held(owner, entries, Loose)
               && Entries(entries)
      requires forall x :: x in entries ==> 1 <= x && Valid(names, x)
      modifies this, blink, bucket, stack
      ensures ok ==> InOrder(names, index) && Distinct(index) && forall x :: x in index <==> x in entries
      ensures |entries| <= stack.Length ==> ok
    {
      ghost var start := owner;
      ok := Begin(entries);
      if !ok { return; }
      while sortPtr > 0
        invariant Sorting(start) && Size(piles) <= |entries|
        decreases Work(piles)
      {
        ok := Turn(start);
        if !ok { return; }
      }
      AllOut(start, entries);
      ok := true;
    }

    method Begin(entries: seq<nat>) returns (ok: bool)
      requires Lists() && AllEmpty(buckets) && piles == [] && index == [] && Held(owner, entries, Loose)
      requires forall x :: x in entries ==> 1 <= x && Valid(names, x)
      modifies blink, bucket, stack, this`sortPtr, this`buckets, this`piles, this`owner
      ensures ok ==> Sorting(old(owner)) && Size(piles) == |entries|
      ensures |entries| <= stack.Length ==> ok
    {
      Collect(entries);
      ghost var dealt := owner;
      ghost var parts, classes;
      ok, parts, classes := Unbucket(0, entries);
      if ok {
        assert piles == [] + parts == parts;
        FirstStacked(names, index, piles, entries, parts, classes);
        SameTwice(old(owner), dealt, owner);
      }
    }

    // The entries, one after the other, to their buckets by the first byte.
    method Collect(entries: seq<nat>)
      requires Lists() && AllEmpty(buckets) && Held(owner, entries, Loose)
      requires forall x :: x in entries ==> 1 <= x && Valid(names, x)
      modifies blink, bucket, this`buckets, this`owner
      ensures Lists() && Sorted(names, entries, 0, buckets) && Held(owner, [], Loose) && SameEntries(old(owner), owner)
      ensures Total(buckets) == |entries|
    {
      var k := 0;
      TotalEmpty(buckets);
      assert entries[0..] == entries;
      while k < |entries|
        invariant k <= |entries| && Lists() && Sorted(names, entries, 0, buckets)
        invariant Held(owner, entries[k..], Loose) && SameEntries(old(owner), owner) && Total(buckets) == k
      {
        var x := entries[k];
        assert x in entries && entries[k..][0] == x && entries[k..][1..] == entries[k + 1..];
        var c := ByteAt(names[x], 0);
        BucketOfByte(names[x], 0);
        HeldTail(owner, entries[k..], Loose, InBucket(c));
        SortedOne(names, entries, 0, buckets, x, c);
        assert x in entries[k..];
        TotalUpdate(buckets, c, [x] + buckets[c]);
        Deal(x, c);
        k := k + 1;
      }
      assert entries[k..] == [];
    }

    lemma AllOut(start: seq<Owner>, entries: seq<nat>)
      requires Sorting(start) && sortPtr == 0 && |start| == |names|
      requires forall x: nat :: x < |start| ==> (x in entries <==> !start[x].Nowhere?)
      requires forall x :: x in entries ==> x < |names|
      ensures forall x :: x in index <==> x in entries
    {
      forall x: nat | x < |owner|
        ensures owner[x] == PutOut || owner[x].Nowhere?
      {
        NoneHeld(owner, Loose, x);
        NotInBucket(blink[..], bucket[..], buckets, owner, 0, x);
      }
    }

    // A name that is loose goes to the front of bucket b.
    method Deal(x: nat, b: nat)
      requires Lists() && 1 <= x < |owner| && owner[x] == Loose && b < 256
      modifies blink, bucket, this`buckets, this`owner
      ensures Lists() && buckets == old(buckets)[b := [x] + old(buckets)[b]] && owner == old(owner)[x := InBucket(b)]
      ensures blink[..] == old(blink[..])[x := old(bucket[b])]
    {
      ghost var bl: seq<nat>, heads: seq<nat> := blink[..], bucket[..];
      DealtOne(bl, heads, buckets, owner, x, b);
      StackUntouched(blink[..], stack[..sortPtr], piles, owner, x, bucket[b], InBucket(b));
      HeldElsewhere(owner, index, PutOut, x, InBucket(b));
      blink[x] := bucket[b];
      bucket[b] := x;
      buckets := buckets[b := [x] + buckets[b]];
      owner := owner[x := InBucket(b)];
      assert blink[..] == bl[x := heads[b]] && bucket[..] == heads[b := x];
    }

    // The names of a list, all loose, to their buckets by byte d.
    method DealAll(head: nat, d: nat, ghost s: seq<nat>)
      requires Lists() && AllEmpty(buckets) && Linked(blink[..], head, s) && Held(owner, s, Loose)
      requires forall x :: x in s ==> Valid(names, x)
      modifies blink, bucket, this`buckets, this`owner
      ensures Lists() && Sorted(names, s, d, buckets) && Held(owner, [], Loose) && SameEntries(old(owner), owner)
      ensures Total(buckets) == |s|
    {
      var nextName := head;
      ghost var rest := s;
      TotalEmpty(buckets);
      while nextName != 0
        invariant Lists() && Linked(blink[..], nextName, rest) && Held(owner, rest, Loose)
        invariant Sorted(names, s, d, buckets) && SameEntries(old(owner), owner)
        invariant forall x :: x in rest ==> x in s
        invariant Total(buckets) + |rest| == |s|
        decreases |rest|
      {
        var curName := nextName;
        LinkedTail(blink[..], nextName, rest);
        nextName := blink[curName];
        nextName, rest := Step(curName, nextName, d, s, rest);
      }
      LinkedNone(blink[..], rest);
    }

    method Step(x: nat, next: nat, d: nat, ghost s: seq<nat>, ghost rest: seq<nat>)
      returns (next': nat, ghost rest': seq<nat>)
      requires Lists() && rest != [] && x == rest[0] && 1 <= x < blink.Length && Held(owner, rest, Loose)
      requires Linked(blink[..], next, rest[1..])
      requires Sorted(names, s, d, buckets) && forall y :: y in rest ==> y in s
      modifies blink, bucket, this`buckets, this`owner
      ensures next' == next && rest' == rest[1..]
      ensures Lists() && Linked(blink[..], next', rest') && Held(owner, rest', Loose)
      ensures Sorted(names, s, d, buckets) && SameEntries(old(owner), owner)
      ensures Total(buckets) == old(Total(buckets)) + 1
    {
      assert x in rest;
      var c := ByteAt(names[x], d);
      BucketOfByte(names[x], d);
      HeldTail(owner, rest, Loose, InBucket(c));
      assert x !in rest[1..] by { HeldTail(owner, rest, Loose, InBucket(c)); }
      LinkedElsewhere(blink[..], next, rest[1..], x, bucket[c]);
      SortedOne(names, s, d, buckets, x, c);
      TotalUpdate(buckets, c, [x] + buckets[c]);
      Deal(x, c);
      return next, rest[1..];
    }

    // The list of bucket b goes onto the stack.
    method PushBucket(b: nat, depth: nat) returns (ok: bool)
      requires Lists() && b < 256 && buckets[b] != []
      modifies bucket, stack, this`sortPtr, this`buckets, this`piles, this`owner
      ensures ok == (old(sortPtr) < stack.Length)
      ensures ok ==> Lists() && piles == old(piles) + [Pile(depth, old(buckets)[b])] && buckets == old(buckets)[b := []]
                     && SameEntries(old(owner), owner) && (Held(old(owner), [], Loose) ==> Held(owner, [], Loose))
    {
      if sortPtr >= stack.Length { return false; }
      ghost var bl: seq<nat>, heads: seq<nat>, st: seq<Entry> := blink[..], bucket[..], stack[..sortPtr];
      Pushed(bl, heads, st, buckets, piles, owner, b, depth);
      HeldIndex(b);
      stack[sortPtr] := Entry(depth, bucket[b]);
      sortPtr := sortPtr + 1;
      assert stack[..sortPtr] == st + [Entry(depth, bucket[b])];
      bucket[b] := 0;
      assert bucket[..] == heads[b := 0];
      owner := Reowned(owner, buckets[b], OnStack(sortPtr - 1));
      piles := piles + [Pile(depth, buckets[b])];
      buckets := buckets[b := []];
      return true;
    }

    // unbucket: the buckets go onto the stack, the last place first.
    method Unbucket(d: nat, ghost s: seq<nat>) returns (ok: bool, ghost parts: seq<Pile>, ghost classes: seq<nat>)
      requires Lists() && Sorted(names, s, d, buckets) && Held(owner, [], Loose) && d < INFINITY - 1
      requires NoneEmpty(piles)
      modifies bucket, stack, this`sortPtr, this`buckets, this`piles, this`owner
      ensures Size(old(piles)) + old(Total(buckets)) <= stack.Length ==> ok
      ensures ok ==> Size(piles) == Size(old(piles)) + old(Total(buckets))
      ensures ok ==> Lists() && piles == old(piles) + parts && Dealt(names, s, d, parts, classes) && AllEmpty(buckets)
      ensures ok ==> Held(owner, [], Loose) && SameEntries(old(owner), owner)
      ensures ok ==> Work(piles) <= Work(old(piles)) + old(Total(buckets)) * Weight(d + 1)
    {
      parts, classes := [], [];
      var c := 229;
      while c > 0
        invariant 0 <= c <= 229 && Unbucketing(c, d, s, parts, classes, old(piles), old(owner))
        invariant Size(piles) + Total(buckets) == Size(old(piles)) + old(Total(buckets))
        invariant Work(piles) + Total(buckets) * Weight(d + 1) <= Work(old(piles)) + old(Total(buckets)) * Weight(d + 1)
      {
        c := c - 1;
        ok, parts, classes := TakePlace(c, d, s, parts, classes, old(piles), old(owner));
        if !ok { return; }
      }
      AllEmptied(names, s, d, buckets);
      TotalEmpty(buckets);
      ok := true;
    }

    // The buckets in places c and up have gone onto the stack, above low.
    ghost predicate Unbucketing(c: nat, d: nat, s: seq<nat>, parts: seq<Pile>, classes: seq<nat>, low: seq<Pile>,
                                start: seq<Owner>)
      reads this, blink, bucket, stack
    {
      && Lists() && piles == low + parts && Dealt(names, s, d, parts, classes)
      && Sorted(names, s, d, buckets) && Held(owner, [], Loose) && SameEntries(start, owner)
      && (forall k :: 0 <= k < |classes| ==> classes[k] >= c)
      && Emptied(buckets, c) && NoneEmpty(piles)
    }

    method TakePlace(c: nat, d: nat, ghost s: seq<nat>, ghost parts: seq<Pile>, ghost classes: seq<nat>,
                     ghost low: seq<Pile>, ghost start: seq<Owner>)
      returns (ok: bool, ghost parts': seq<Pile>, ghost classes': seq<nat>)
      requires c <= 228 && d < INFINITY - 1 && Unbucketing(c + 1, d, s, parts, classes, low, start)
      modifies bucket, stack, this`sortPtr, this`buckets, this`piles, this`owner
      ensures ok ==> Unbucketing(c, d, s, parts', classes', low, start)
      ensures old(Size(piles)) + old(Total(buckets)) <= stack.Length ==> ok
      ensures ok ==> Size(piles) + Total(buckets) == old(Size(piles)) + old(Total(buckets))
      ensures ok ==>
                Work(piles) + Total(buckets) * Weight(d + 1) <= old(Work(piles)) + old(Total(buckets)) * Weight(d + 1)
    {
      CollateRank(c, 1);
      var b := Collate(c);
      BucketEmpty(b);
      if bucket[b] != 0 {
        ok, parts', classes' := PushClass(c, d, s, parts, classes, low);
      } else {
        ok, parts', classes' := true, parts, classes;
      }
      if ok { EmptiedNext(buckets, c); }
    }

    lemma BucketEmpty(b: nat)
      requires Lists() && b < 256
      ensures bucket[b] == 0 <==> buckets[b] == []
    {
      assert Linked(blink[..], bucket[..][b], buckets[b]);
      if bucket[b] == 0 { LinkedNone(blink[..], buckets[b]); }
    }

    // The bucket in place c, not empty.
    method PushClass(c: nat, d: nat, ghost s: seq<nat>, ghost parts: seq<Pile>, ghost classes: seq<nat>,
                     ghost low: seq<Pile>)
      returns (ok: bool, ghost parts': seq<Pile>, ghost classes': seq<nat>)
      requires Lists() && Sorted(names, s, d, buckets) && Held(owner, [], Loose) && d < INFINITY - 1
      requires c <= 228 && Collate(c) < 256 && buckets[Collate(c)] != []
      requires piles == low + parts && Dealt(names, s, d, parts, classes)
      requires NoneEmpty(piles) && forall k :: 0 <= k < |classes| ==> classes[k] > c
      modifies bucket, stack, this`sortPtr, this`buckets, this`piles, this`owner
      ensures old(Size(piles)) + old(Total(buckets)) <= stack.Length ==> ok
      ensures ok ==> Lists() && Held(owner, [], Loose) && SameEntries(old(owner), owner)
      ensures ok ==> piles == low + parts' && classes' == classes + [c] && buckets == old(buckets)[Collate(c) := []]
      ensures ok ==> OneMore(names, s, d, old(buckets), old(piles), buckets, piles, parts', classes')
    {
      var b := Collate(c);
      var depth := if c == 0 then INFINITY else d + 1;
      ghost var p := Pile(depth, buckets[b]);
      ClassPushed(names, s, d, buckets, piles, parts, classes, c, p);
      RoomForBucket(b);
      parts', classes' := parts + [p], classes + [c];
      assert piles + [p] == low + parts';
      ok := PushBucket(b, depth);
    }

    lemma RoomForBucket(b: nat)
      requires Lists() && b < 256 && buckets[b] != [] && NoneEmpty(piles)
      ensures Size(piles) + Total(buckets) <= stack.Length ==> sortPtr < stack.Length
    {
      FewPiles(piles);
      TotalUpdate(buckets, b, []);
    }

    // The top pile off the stack, its names loose.
    method PopTop() returns (e: Entry, ghost p: Pile)
      requires Lists() && sortPtr > 0 && Held(owner, [], Loose)
      modifies this`sortPtr, this`piles, this`owner
      ensures Lists() && old(piles) == piles + [p] && e.depth == p.depth
      ensures Linked(blink[..], e.head, p.members) && Held(owner, p.members, Loose) && SameEntries(old(owner), owner)
    {
      ghost var n := sortPtr - 1;
      p := piles[n];
      assert stack[..sortPtr][n] == stack[n] && stack[..sortPtr][..n] == stack[..n];
      Popped(blink[..], bucket[..], stack[..sortPtr], buckets, piles, owner, index);
      assert piles == piles[..n] + [p];
      e := stack[sortPtr - 1];
      sortPtr := sortPtr - 1;
      piles := piles[..n];
      owner := Reowned(owner, p.members, Loose);
    }

    // The names of a list go to the index.
    method PutList(head: nat, ghost s: seq<nat>)
      requires Lists() && Linked(blink[..], head, s) && Held(owner, s, Loose)
      modifies this`index, this`owner
      ensures Lists() && index == old(index) + s && Held(owner, [], Loose) && SameEntries(old(owner), owner)
    {
      var curName := head;
      ghost var rest := s;
      while curName != 0
        invariant Lists() && Linked(blink[..], curName, rest) && Held(owner, rest, Loose)
        invariant SameEntries(old(owner), owner) && index + rest == old(index) + s
        decreases |rest|
      {
        LinkedTail(blink[..], curName, rest);
        assert curName in rest && rest == [curName] + rest[1..];
        PutName(curName, rest);
        rest := rest[1..];
        curName := blink[curName];
      }
      LinkedNone(blink[..], rest);
    }

    method PutName(x: nat, ghost rest: seq<nat>)
      requires Lists() && rest != [] && x == rest[0] && Held(owner, rest, Loose)
      modifies this`index, this`owner
      ensures Lists() && index == old(index) + [x] && Held(owner, rest[1..], Loose) && SameEntries(old(owner), owner)
    {
      assert x in rest;
      HeldTail(owner, rest, Loose, PutOut);
      HeldAppended(owner, index, PutOut, x);
      Moved(blink[..], bucket[..], stack[..sortPtr], buckets, piles, owner, x);
      index := index + [x];
      owner := owner[x := PutOut];
    }

    // What holds between turns.
    ghost predicate Sorting(start: seq<Owner>)
      reads this, blink, bucket, stack
    {
      && Lists() && AllEmpty(buckets) && Held(owner, [], Loose) && SameEntries(start, owner)
      && Stacked(names, piles) && Done(names, index, piles) && InOrder(names, index)
    }

    // Whether the pile on top has one name only.
    method Single() returns (single: bool)
      requires Lists() && sortPtr > 0 && piles[sortPtr - 1].members != []
      ensures single <==> |piles[sortPtr - 1].members| == 1
    {
      var e := stack[sortPtr - 1];
      ghost var s := piles[sortPtr - 1].members;
      assert stack[..sortPtr][sortPtr - 1] == e && Linked(blink[..], e.head, s);
      LinkedTail(blink[..], e.head, s);
      assert s[1..] != [] ==> LinkAt(blink[..], s[1..], 0);
      single := blink[e.head] == 0;
    }

    // A turn of the sort: the pile on top is put out if nothing in it is to be told apart,
    // dealt out by the next byte otherwise.
    method Turn(ghost start: seq<Owner>) returns (ok: bool)
      requires Sorting(start) && sortPtr > 0
      modifies blink, bucket, stack, this`sortPtr, this`index, this`buckets, this`piles, this`owner
      ensures ok ==> Sorting(start) && Work(piles) < old(Work(piles)) && Size(piles) <= old(Size(piles))
      ensures old(Size(piles)) <= stack.Length ==> ok
    {
      ghost var was := piles;
      assert PileOk(names, was[sortPtr - 1]);
      var single := Single();
      var e;
      ghost var p;
      e, p := PopTop();
      assert was[|piles|] == p;
      WorkPush(piles, p);
      SizePush(piles, p);
      if single || e.depth == INFINITY {
        PutTop(e, p);
        ok := true;
      } else {
        ok := DealTop(e, p);
      }
    }

    method PutTop(e: Entry, ghost p: Pile)
      requires Lists() && AllEmpty(buckets) && Linked(blink[..], e.head, p.members) && Held(owner, p.members, Loose)
      requires Stacked(names, piles + [p]) && Done(names, index, piles + [p]) && InOrder(names, index)
      requires PileOk(names, p) && (p.depth == INFINITY || |p.members| == 1)
      modifies this`index, this`owner
      ensures Sorting(old(owner)) && 0 < |p.members| * Weight(p.depth)
    {
      IndexPiles.PutOut(names, index, piles, p);
      WorkShrinks(names, p);
      PutList(e.head, p.members);
    }

    method DealTop(e: Entry, ghost p: Pile) returns (ok: bool)
      requires Lists() && AllEmpty(buckets) && Linked(blink[..], e.head, p.members) && Held(owner, p.members, Loose)
      requires Stacked(names, piles + [p]) && Done(names, index, piles + [p]) && InOrder(names, index)
      requires PileOk(names, p) && e.depth == p.depth != INFINITY
      modifies blink, bucket, stack, this`sortPtr, this`buckets, this`piles, this`owner
      ensures ok ==> Sorting(old(owner)) && Work(piles) < old(Work(piles)) + |p.members| * Weight(p.depth)
      ensures ok ==> Size(piles) == old(Size(piles)) + |p.members|
      ensures old(Size(piles)) + |p.members| <= stack.Length ==> ok
    {
      ghost var low := piles;
      LowNotEmpty(names, piles, p);
      DepthSmall(names, p);
      WorkShrinks(names, p);
      DealAll(e.head, e.depth, p.members);
      ghost var parts, classes;
      ok, parts, classes := Unbucket(e.depth, p.members);
      if ok {
        StackedAgain(names, low, p.members, p.depth, parts, classes);
        DoneAgain(names, index, low, p.members, p.depth, parts, classes);
      }
    }

    lemma HeldIndex(b: nat)
      requires Lists() && b < 256
      ensures var owner' := Reowned(owner, buckets[b], OnStack(sortPtr));
              && Held(owner', index, PutOut) && SameEntries(owner, owner') && Within(owner', sortPtr + 1)
              && (Held(owner, [], Loose) ==> Held(owner', [], Loose))
    {
      assert Held(owner, buckets[b], InBucket(b));
      ReownedElsewhere(owner, buckets[b], InBucket(b), OnStack(sortPtr), index, PutOut);
    }
  }

  lemma LowNotEmpty(names: seq<seq<nat>>, piles: seq<Pile>, p: Pile)
    requires Stacked(names, piles + [p])
    ensures NoneEmpty(piles)
  {
    forall i | 0 <= i < |piles|
      ensures piles[i].members != []
    {
      assert PileOk(names, (piles + [p])[i]);
    }
  }

  lemma DepthSmall(names: seq<seq<nat>>, p: Pile)
    requires PileOk(names, p) && p.depth != INFINITY
    ensures p.depth < 254 && p == Pile(p.depth, p.members)
  {
    var x := p.members[0];
    assert x in p.members && Valid(names, x);
  }

  lemma WorkShrinks(names: seq<seq<nat>>, p: Pile)
    requires PileOk(names, p)
    ensures |p.members| * Weight(p.depth) > 0
    ensures p.depth != INFINITY ==> |p.members| * Weight(p.depth + 1) < |p.members| * Weight(p.depth)
  {
    if p.depth != INFINITY { DepthSmall(names, p); }
    Times(|p.members|, Weight(p.depth));
    if p.depth != INFINITY {
      assert Weight(p.depth) == Weight(p.depth + 1) + 1;
      Distribute(|p.members|, Weight(p.depth + 1));
    }
  }

  lemma Times(m: nat, n: nat)
    requires m > 0 && n > 0
    ensures m * n > 0
  {
  }

  lemma Distribute(m: nat, n: nat)
    ensures m * (n + 1) == m * n + m
  {
  }

  // The first piles: all entries dealt by their first byte.
  lemma FirstStacked(names: seq<seq<nat>>, index: seq<nat>, piles: seq<Pile>, entries: seq<nat>, parts: seq<Pile>,
                     classes: seq<nat>)
    requires index == [] && piles == parts
    requires (forall x :: x in entries ==> Valid(names, x)) && Dealt(names, entries, 0, parts, classes)
    ensures Stacked(names, piles) && Done(names, index, piles) && InOrder(names, index)
  {
    if parts != [] {
      DealtSome(names, entries, 0, parts[0], classes[0]);
      assert PileOk(names, Pile(0, entries));
      assert [] + [Pile(0, entries)] == [Pile(0, entries)] && [] + parts == parts;
      StackedAgain(names, [], entries, 0, parts, classes);
    }
  }

  lemma DealtSome(names: seq<seq<nat>>, s: seq<nat>, d: nat, p: Pile, c: nat)
    requires DealtPile(names, s, d, p, c)
    ensures s != []
  {
    assert p.members[0] in p.members;
  }

  // Taking the top pile off the stack.
  lemma Popped(bl: seq<nat>, heads: seq<nat>, stack: seq<Entry>, buckets: seq<seq<nat>>, piles: seq<Pile>,
               owner: seq<Owner>, index: seq<nat>)
    requires BucketsOk(bl, heads, buckets, owner) && StackOk(bl, stack, piles, owner) && Within(owner, |piles|)
    requires Held(owner, index, PutOut) && piles != [] && Held(owner, [], Loose)
    ensures var n := |piles| - 1;
            var s := piles[n].members;
            var owner' := Reowned(owner, s, Loose);
            && BucketsOk(bl, heads, buckets, owner') && StackOk(bl, stack[..n], piles[..n], owner') && Within(owner', n)
            && Held(owner', index, PutOut) && Held(owner', s, Loose) && SameEntries(owner, owner')
  {
    var n := |piles| - 1;
    var s := piles[n].members;
    assert Held(owner, s, OnStack(n));
    var owner' := Reowned(owner, s, Loose);
    ReownedHeld(owner, s, OnStack(n), Loose);
    ReownedElsewhere(owner, s, OnStack(n), Loose, index, PutOut);
    forall b | 0 <= b < 256
      ensures Held(owner', buckets[b], InBucket(b))
    {
      ReownedElsewhere(owner, s, OnStack(n), Loose, buckets[b], InBucket(b));
    }
    forall i | 0 <= i < n
      ensures Held(owner', piles[i].members, OnStack(i))
    {
      ReownedElsewhere(owner, s, OnStack(n), Loose, piles[i].members, OnStack(i));
    }
  }

  // A loose name put out.
  lemma Moved(bl: seq<nat>, heads: seq<nat>, stack: seq<Entry>, buckets: seq<seq<nat>>, piles: seq<Pile>,
              owner: seq<Owner>, x: nat)
    requires BucketsOk(bl, heads, buckets, owner) && StackOk(bl, stack, piles, owner) && Within(owner, |piles|)
    requires x < |owner| && owner[x] == Loose
    ensures var owner' := owner[x := PutOut];
            BucketsOk(bl, heads, buckets, owner') && StackOk(bl, stack, piles, owner') && Within(owner', |piles|)
  {
    var owner' := owner[x := PutOut];
    forall b | 0 <= b < 256
      ensures Held(owner', buckets[b], InBucket(b))
    {
      HeldElsewhere(owner, buckets[b], InBucket(b), x, PutOut);
    }
    forall i | 0 <= i < |piles|
      ensures Held(owner', piles[i].members, OnStack(i))
    {
      HeldElsewhere(owner, piles[i].members, OnStack(i), x, PutOut);
    }
  }

  // The buckets in places c and up are empty.
  ghost predicate Emptied(buckets: seq<seq<nat>>, c: nat) {
    |buckets| == 256 && forall k :: c <= k <= 228 ==> Collate(k) < 256 && buckets[Collate(k)] == []
  }

  lemma EmptiedNext(buckets: seq<seq<nat>>, c: nat)
    requires c <= 228 && Collate(c) < 256 && |buckets| == 256 && buckets[Collate(c)] == []
    requires Emptied(buckets, c + 1)
    ensures Emptied(buckets, c)
  {
  }

  lemma AllEmptied(names: seq<seq<nat>>, s: seq<nat>, d: nat, buckets: seq<seq<nat>>)
    requires Sorted(names, s, d, buckets) && Emptied(buckets, 0)
    ensures AllEmpty(buckets)
  {
    forall b | 0 <= b < 256
      ensures buckets[b] == []
    {
      if buckets[b] != [] {
        var x := buckets[b][0];
        assert x in buckets[b] && x in s && Valid(names, x);
        BucketOfByte(names[x], d);
      }
    }
  }

  lemma DealtMore(names: seq<seq<nat>>, s: seq<nat>, d: nat, parts: seq<Pile>, classes: seq<nat>, p: Pile, c: nat)
    requires Dealt(names, s, d, parts, classes) && DealtPile(names, s, d, p, c)
    requires forall k :: 0 <= k < |classes| ==> classes[k] > c
    ensures Dealt(names, s, d, parts + [p], classes + [c])
  {
  }

  // A bucket gone onto the stack, as one more class of s.
  ghost predicate OneMore(names: seq<seq<nat>>, s: seq<nat>, d: nat, buckets: seq<seq<nat>>, piles: seq<Pile>,
                          buckets': seq<seq<nat>>, piles': seq<Pile>, parts': seq<Pile>, classes': seq<nat>) {
    && NoneEmpty(piles') && Dealt(names, s, d, parts', classes') && Sorted(names, s, d, buckets')
    && Size(piles') + Total(buckets') == Size(piles) + Total(buckets)
    && Work(piles') + Total(buckets') * Weight(d + 1) <= Work(piles) + Total(buckets) * Weight(d + 1)
  }

  lemma ClassPushed(names: seq<seq<nat>>, s: seq<nat>, d: nat, buckets: seq<seq<nat>>, piles: seq<Pile>,
                    parts: seq<Pile>, classes: seq<nat>, c: nat, p: Pile)
    requires Sorted(names, s, d, buckets) && d < INFINITY - 1 && c <= 228 && Collate(c) < 256
             && buckets[Collate(c)] != [] && NoneEmpty(piles)
    requires Dealt(names, s, d, parts, classes) && forall k :: 0 <= k < |classes| ==> classes[k] > c
    requires p == Pile(if c == 0 then INFINITY else d + 1, buckets[Collate(c)])
    ensures OneMore(names, s, d, buckets, piles, buckets[Collate(c) := []], piles + [p], parts + [p], classes + [c])
  {
    var b := Collate(c);
    BucketIsPile(names, s, d, buckets, c);
    DealtMore(names, s, d, parts, classes, p, c);
    TotalUpdate(buckets, b, []);
    WorkPush(piles, p);
    SizePush(piles, p);
    WorkShifted(|buckets[b]|, Total(buckets), Weight(p.depth), Weight(d + 1));
  }

  lemma WorkShifted(n: nat, total: nat, v: nat, w: nat)
    requires n <= total && v <= w
    ensures n * v + (total - n) * w <= total * w
  {
    assert n * v <= n * w;
    assert (total - n) * w == total * w - n * w;
  }

  lemma Pushed(bl: seq<nat>, heads: seq<nat>, stack: seq<Entry>, buckets: seq<seq<nat>>, piles: seq<Pile>,
               owner: seq<Owner>, b: nat, depth: nat)
    requires BucketsOk(bl, heads, buckets, owner) && StackOk(bl, stack, piles, owner) && Within(owner, |piles|)
    requires b < 256
    ensures var owner' := Reowned(owner, buckets[b], OnStack(|piles|));
            && BucketsOk(bl, heads[b := 0], buckets[b := []], owner')
            && StackOk(bl, stack + [Entry(depth, heads[b])], piles + [Pile(depth, buckets[b])], owner')
  {
    var o := OnStack(|piles|);
    var owner' := Reowned(owner, buckets[b], o);
    assert Held(owner, buckets[b], InBucket(b)) && Linked(bl, heads[b], buckets[b]);
    forall c | 0 <= c < 256
      ensures Linked(bl, heads[b := 0][c], buckets[b := []][c]) && Held(owner', buckets[b := []][c], InBucket(c))
    {
      if c != b { ReownedElsewhere(owner, buckets[b], InBucket(b), o, buckets[c], InBucket(c)); }
    }
    ReownedHeld(owner, buckets[b], InBucket(b), o);
    forall i | 0 <= i < |piles|
      ensures Held(owner', piles[i].members, OnStack(i))
    {
      ReownedElsewhere(owner, buckets[b], InBucket(b), o, piles[i].members, OnStack(i));
    }
  }
}
