// Singly linked lists of items that are numbered from 1, their links in one array.
module LinkedLists {

  // The list from head in the links bl is s; 0 is the end.
  ghost predicate Linked(bl: seq<nat>, head: nat, s: seq<nat>) {
    head == Nth(s, 0) && forall i :: 0 <= i < |s| ==> LinkAt(bl, s, i)
  }

  function Nth(s: seq<nat>, i: nat): nat { if i < |s| then s[i] else 0 }

  ghost predicate LinkAt(bl: seq<nat>, s: seq<nat>, i: nat)
    requires i < |s|
  {
    1 <= s[i] < |bl| && bl[s[i]] == Nth(s, i + 1)
  }

  // Changing the link of an item that is not in the list does nothing to it.
  lemma LinkedElsewhere(bl: seq<nat>, head: nat, s: seq<nat>, x: nat, v: nat)
    requires Linked(bl, head, s) && x !in s && x < |bl|
    ensures Linked(bl[x := v], head, s)
  {
    var bl' := bl[x := v];
    forall i | 0 <= i < |s|
      ensures LinkAt(bl', s, i)
    {
      assert LinkAt(bl, s, i) && s[i] in s;
    }
  }

  lemma LinkedPushed(bl: seq<nat>, head: nat, s: seq<nat>, x: nat)
    requires Linked(bl, head, s) && x !in s && 1 <= x < |bl|
    ensures Linked(bl[x := head], x, [x] + s)
  {
    LinkedElsewhere(bl, head, s, x, head);
    var bl', t := bl[x := head], [x] + s;
    forall i | 0 <= i < |t|
      ensures LinkAt(bl', t, i)
    {
      if i > 0 { assert LinkAt(bl', s, i - 1); }
    }
  }

  lemma LinkedTail(bl: seq<nat>, head: nat, s: seq<nat>)
    requires Linked(bl, head, s) && s != []
    ensures head == s[0] && 1 <= head < |bl| && Linked(bl, bl[head], s[1..])
  {
    assert LinkAt(bl, s, 0);
    var t := s[1..];
    forall i | 0 <= i < |t|
      ensures LinkAt(bl, t, i)
    {
      assert LinkAt(bl, s, i + 1);
    }
  }

  lemma LinkedNone(bl: seq<nat>, s: seq<nat>)
    requires Linked(bl, 0, s)
    ensures s == []
  {
    assert |s| > 0 ==> LinkAt(bl, s, 0);
  }
}
