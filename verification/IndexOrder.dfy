// The order of the index: letters without regard to case, shorter names before longer ones.
module IndexOrder {

  // collate: the byte in the c-th place of the index order.
  function Collate(c: nat): nat
    requires c <= 228
  {
    if c == 0 then 0
    else if c == 1 then 32
    else if c <= 32 then c - 1
    else if c <= 47 then c            // ! to /
    else if c <= 54 then c + 10       // : to @
    else if c <= 58 then c + 36       // [ to ^
    else if c == 59 then 96           // `
    else if c <= 63 then c + 63       // { to ~
    else if c == 64 then 95           // _
    else if c <= 90 then c + 32       // a to z
    else if c <= 100 then c - 43      // 0 to 9
    else c + 27
  }

  // Capital letters count as small ones.
  function Fold(b: nat): nat { if 65 <= b <= 90 then b + 32 else b }

  // The place of a byte; bytes 0 and 127 have none but the first.
  function Rank(b: nat): nat {
    if b == 32 then 1
    else if 1 <= b <= 31 then b + 1
    else if 33 <= b <= 47 then b
    else if 58 <= b <= 64 then b - 10
    else if 91 <= b <= 94 then b - 36
    else if b == 96 then 59
    else if 123 <= b <= 126 then b - 63
    else if b == 95 then 64
    else if 97 <= b <= 122 then b - 32
    else if 48 <= b <= 57 then b + 43
    else if 128 <= b <= 255 then b - 27
    else 0
  }

  predicate Letter(b: nat) { 0 < b < 256 && b != 127 }

  // Every place is taken by the one byte that has it.
  lemma CollateRank(c: nat, b: nat)
    requires c <= 228 && Letter(b)
    ensures Rank(Collate(c)) == c && Collate(c) < 256
    ensures 1 <= Rank(Fold(b)) <= 228 && Collate(Rank(Fold(b))) == Fold(b)
  {
  }

  predicate NameOk(a: seq<nat>) { 0 < |a| < 254 && forall i | 0 <= i < |a| :: Letter(a[i]) }

  // The place of the d-th byte, 0 past the end.
  function KeyAt(a: seq<nat>, d: nat): nat { if d < |a| then Rank(Fold(a[d])) else 0 }

  // The order as one would define it.
  predicate LexLe(a: seq<nat>, b: seq<nat>) {
    a == [] ||
    (b != [] && (KeyAt(a, 0) < KeyAt(b, 0) || (KeyAt(a, 0) == KeyAt(b, 0) && LexLe(a[1..], b[1..]))))
  }

  ghost predicate Agree(a: seq<nat>, b: seq<nat>, d: nat) { forall i :: 0 <= i < d ==> KeyAt(a, i) == KeyAt(b, i) }

  // a and b agree up to a place where a comes first.
  ghost predicate BeforeAt(a: seq<nat>, b: seq<nat>, d: nat) { Agree(a, b, d) && KeyAt(a, d) < KeyAt(b, d) }

  ghost predicate Before(a: seq<nat>, b: seq<nat>) { exists d: nat :: BeforeAt(a, b, d) }

  ghost predicate Same(a: seq<nat>, b: seq<nat>) { |a| == |b| && Agree(a, b, |a|) }

  ghost predicate Letters(a: seq<nat>) { forall i :: 0 <= i < |a| ==> Letter(a[i]) }

  lemma KeyTail(a: seq<nat>, d: nat)
    requires a != []
    ensures KeyAt(a[1..], d) == KeyAt(a, d + 1)
  {
  }

  lemma AgreeTails(a: seq<nat>, b: seq<nat>, d: nat)
    requires a != [] && b != [] && Agree(a, b, d + 1)
    ensures Agree(a[1..], b[1..], d)
  {
    forall i | 0 <= i < d
      ensures KeyAt(a[1..], i) == KeyAt(b[1..], i)
    {
      KeyTail(a, i);
      KeyTail(b, i);
      assert KeyAt(a, i + 1) == KeyAt(b, i + 1);
    }
  }

  // The first difference decides.
  lemma {:induction false} BeforeDecides(a: seq<nat>, b: seq<nat>, d: nat)
    requires Letters(a) && Letters(b) && BeforeAt(a, b, d)
    ensures LexLe(a, b) && !LexLe(b, a)
    decreases d
  {
    if a != [] { CollateRank(0, a[0]); }
    if b != [] { CollateRank(0, b[0]); }
    if d > 0 {
      assert KeyAt(a, 0) == KeyAt(b, 0);
      if a != [] && b != [] {
        AgreeTails(a, b, d - 1);
        KeyTail(a, d - 1);
        KeyTail(b, d - 1);
        BeforeDecides(a[1..], b[1..], d - 1);
      }
    }
  }

  lemma {:induction false} SameIsLe(a: seq<nat>, b: seq<nat>)
    requires Same(a, b)
    ensures LexLe(a, b)
  {
    if a != [] {
      assert KeyAt(a, 0) == KeyAt(b, 0);
      AgreeTails(a, b, |a| - 1);
      SameIsLe(a[1..], b[1..]);
    }
  }

  lemma BeforeIsLe(a: seq<nat>, b: seq<nat>)
    requires Letters(a) && Letters(b) && (Before(a, b) || Same(a, b))
    ensures LexLe(a, b)
  {
    if Before(a, b) {
      var d: nat :| BeforeAt(a, b, d);
      BeforeDecides(a, b, d);
    } else {
      SameIsLe(a, b);
    }
  }
}
