// Sixteen-bit addresses and route logs, as the protocol compares and updates them.
module Bits {

  const ADDR_SIZE: nat := 16

  type Bits = b: seq<bool> | |b| == 16 witness seq(16, _ => false)

  const ZEROS: Bits := [false, false, false, false, false, false, false, false,
                       false, false, false, false, false, false, false, false]

  function Pow2(n: nat): (p: nat)
    ensures p >= 1
  {
    if n == 0 then 1 else 2 * Pow2(n - 1)
  }

  // The number that the n lowest bits spell.
  function Low(b: Bits, n: nat): (v: nat)
    requires n <= ADDR_SIZE
    ensures v < Pow2(n)
  {
    if n == 0 then 0 else Low(b, n - 1) + (if b[n - 1] then Pow2(n - 1) else 0)
  }

  function Value(b: Bits): nat { Low(b, ADDR_SIZE) }

  // ---------- the highest bit in which two addresses differ ----------

  function DiffBit(a: Bits, b: Bits): (d: int)
    ensures -1 <= d < ADDR_SIZE
  {
    DiffBelow(a, b, ADDR_SIZE)
  }

  function DiffBelow(a: Bits, b: Bits, n: nat): (d: int)
    requires n <= ADDR_SIZE
    ensures -1 <= d < n
    ensures forall i :: d < i < n ==> a[i] == b[i]
    ensures d >= 0 ==> a[d] != b[d]
  {
    if n == 0 then -1 else if a[n - 1] != b[n - 1] then n - 1 else DiffBelow(a, b, n - 1)
  }

  // The loop.
  method FindDiffBit(a: Bits, b: Bits) returns (i: int)
    ensures i == DiffBit(a, b)
  {
    i := ADDR_SIZE - 1;
    while i > -1
      invariant -1 <= i < ADDR_SIZE && DiffBelow(a, b, i + 1) == DiffBit(a, b)
    {
      if a[i] != b[i] { break; }
      i := i - 1;
    }
  }

  lemma DiffIs(a: Bits, b: Bits, d: nat)
    requires d < ADDR_SIZE && a[d] != b[d] && forall i :: d < i < ADDR_SIZE ==> a[i] == b[i]
    ensures DiffBit(a, b) == d
  {
  }

  // It is symmetric, -1 for equal addresses only, and an ultrametric: of the three
  // distances among three addresses the two largest are equal.
  lemma DiffSymmetric(a: Bits, b: Bits)
    ensures DiffBit(a, b) == DiffBit(b, a)
  {
    var d := DiffBit(a, b);
    if d >= 0 { DiffIs(b, a, d); } else { assert a == b; }
  }

  lemma DiffZero(a: Bits, b: Bits)
    ensures DiffBit(a, b) == -1 <==> a == b
  {
  }

  lemma Ultrametric(a: Bits, b: Bits, c: Bits)
    ensures DiffBit(a, b) < DiffBit(b, c) ==> DiffBit(a, c) == DiffBit(b, c)
    ensures DiffBit(a, b) == DiffBit(b, c) >= 0 ==> DiffBit(a, c) < DiffBit(b, c)
    ensures DiffBit(a, b) > DiffBit(b, c) ==> DiffBit(a, c) == DiffBit(a, b)
  {
    var x, y := DiffBit(a, b), DiffBit(b, c);
    if x < y { DiffIs(a, c, y); } else if x > y { DiffIs(a, c, x); }
  }

  // The highest differing bit decides which number is larger.
  lemma {:induction false} HighBitDecides(a: Bits, b: Bits, n: nat, d: nat)
    requires d < n <= ADDR_SIZE && !a[d] && b[d] && forall i :: d < i < n ==> a[i] == b[i]
    ensures Low(a, n) < Low(b, n)
  {
    if d < n - 1 { HighBitDecides(a, b, n - 1, d); }
  }

  // ---------- the order in which a set keeps its entries ----------

  // The comparison of setCompare, from bit n - 1 down.
  function LessFrom(a: Bits, b: Bits, n: nat): bool
    requires n <= ADDR_SIZE
  {
    if n == 0 then false
    else if !a[n - 1] && b[n - 1] then true
    else if a[n - 1] && !b[n - 1] then false
    else LessFrom(a, b, n - 1)
  }

  function Less(a: Bits, b: Bits): bool { LessFrom(a, b, ADDR_SIZE) }

  lemma {:induction false} LessBelow(a: Bits, b: Bits, n: nat)
    requires n <= ADDR_SIZE
    ensures LessFrom(a, b, n) <==> Low(a, n) < Low(b, n)
  {
    if n > 0 { LessBelow(a, b, n - 1); }
  }

  // It is the order of the numbers, and total.
  lemma LessIsNumeric(a: Bits, b: Bits)
    ensures Less(a, b) <==> Value(a) < Value(b)
    ensures Value(a) == Value(b) <==> a == b
  {
    LessBelow(a, b, ADDR_SIZE);
    var d := DiffBit(a, b);
    if d >= 0 {
      if b[d] { HighBitDecides(a, b, ADDR_SIZE, d); } else { HighBitDecides(b, a, ADDR_SIZE, d); }
    } else {
      assert a == b;
    }
  }

  // ---------- route logs ----------

  // Log whose highest bit is bit i.
  ghost predicate TopBit(log: Bits, i: nat) {
    i < ADDR_SIZE && log[i] && forall j :: i < j < ADDR_SIZE ==> !log[j]
  }

  lemma {:induction false} TopBitLow(log: Bits, i: nat, n: nat)
    requires TopBit(log, i) && i < n <= ADDR_SIZE
    ensures Pow2(i) <= Low(log, n) < Pow2(i + 1)
  {
    if n > i + 1 { TopBitLow(log, i, n - 1); }
  }

  lemma TopBitValue(log: Bits, i: nat)
    requires TopBit(log, i)
    ensures Pow2(i) <= Value(log) < Pow2(i + 1)
  {
    TopBitLow(log, i, ADDR_SIZE);
  }

  // Log of a route that has also crossed level s: bit s set, the bits below cleared.
  function Raised(log: Bits, s: nat): (r: Bits)
    requires s < ADDR_SIZE
  {
    seq(ADDR_SIZE, j requires 0 <= j < ADDR_SIZE => if j < s then false else if j == s then true else log[j])
  }

  // The update as it is made, a bit at a time.
  method Raise(log: Bits, s: nat) returns (r: Bits)
    requires s < ADDR_SIZE
    ensures r == Raised(log, s)
  {
    r := log[s := true];
    var j := 0;
    while j < s
      invariant 0 <= j <= s
      invariant forall k :: 0 <= k < ADDR_SIZE ==>
                  r[k] == if k < j then false else if k == s then true else log[k]
    {
      r := r[j := false];
      j := j + 1;
    }
  }

  // Crossing a level not yet crossed makes the log a strictly larger number with the
  // same highest bit.
  lemma RaisedIsLarger(log: Bits, i: nat, s: nat)
    requires TopBit(log, i) && s < i && !log[s]
    ensures TopBit(Raised(log, s), i) && Value(log) < Value(Raised(log, s))
  {
    HighBitDecides(log, Raised(log, s), ADDR_SIZE, s);
  }

  ghost predicate PassedOn(log: Bits, next: Bits, i: nat) {
    exists s: nat :: s < i && Crosses(log, next, s)
  }

  ghost predicate Crosses(log: Bits, next: Bits, s: nat) {
    s < ADDR_SIZE && !log[s] && next == Raised(log, s)
  }

  // So a route at level i can be passed on fewer than 2^i times, whatever the path.
  ghost predicate Chain(logs: seq<Bits>, i: nat) {
    && (forall k :: 0 <= k < |logs| ==> TopBit(logs[k], i))
    && (forall k :: 0 < k < |logs| ==> PassedOn(logs[k - 1], logs[k], i))
  }

  lemma ChainGrows(logs: seq<Bits>, i: nat, d: nat)
    requires Chain(logs, i) && logs != [] && d < i < ADDR_SIZE && !logs[|logs| - 1][d]
    ensures Chain(logs + [Raised(logs[|logs| - 1], d)], i)
  {
    var last := logs[|logs| - 1];
    RaisedIsLarger(last, i, d);
    assert Crosses(last, Raised(last, d), d);
    var next := logs + [Raised(last, d)];
    forall k | 0 < k < |next|
      ensures PassedOn(next[k - 1], next[k], i)
    {
      if k < |logs| { assert PassedOn(logs[k - 1], logs[k], i); }
    }
  }

  lemma {:induction false} ChainRises(logs: seq<Bits>, i: nat, k: nat)
    requires Chain(logs, i) && k < |logs|
    ensures Value(logs[k]) >= Pow2(i) + k
  {
    TopBitValue(logs[k], i);
    if k > 0 {
      ChainRises(logs, i, k - 1);
      var s: nat :| s < i && Crosses(logs[k - 1], logs[k], s);
      RaisedIsLarger(logs[k - 1], i, s);
    }
  }

  lemma ChainIsShort(logs: seq<Bits>, i: nat)
    requires Chain(logs, i)
    ensures |logs| <= Pow2(i)
  {
    if logs != [] {
      var last := |logs| - 1;
      ChainRises(logs, i, last);
      TopBitValue(logs[last], i);
      assert Value(logs[last]) < 2 * Pow2(i);
    }
  }

  // ---------- the address at which an id is looked up ----------

  // hash: the id read backwards, its highest bit flipped.
  function Hash(id: Bits): Bits {
    seq(ADDR_SIZE, j requires 0 <= j < ADDR_SIZE => if j == ADDR_SIZE - 1 then !id[0] else id[ADDR_SIZE - 1 - j])
  }

  method ComputeHash(id: Bits) returns (address: Bits)
    ensures address == Hash(id)
  {
    address := ZEROS;
    var i := 0;
    while i < ADDR_SIZE
      invariant 0 <= i <= ADDR_SIZE
      invariant forall j :: 0 <= j < ADDR_SIZE ==>
                  address[j] == if j >= ADDR_SIZE - i then id[ADDR_SIZE - 1 - j] else false
    {
      if id[i] { address := address[ADDR_SIZE - 1 - i := true]; }
      i := i + 1;
    }
    address := address[ADDR_SIZE - 1 := !address[ADDR_SIZE - 1]];
  }

  function Unhash(address: Bits): Bits {
    seq(ADDR_SIZE, j requires 0 <= j < ADDR_SIZE =>
      if j == 0 then !address[ADDR_SIZE - 1] else address[ADDR_SIZE - 1 - j])
  }

  // Every address is the hash of exactly one id.
  lemma HashIsBijective(id: Bits, address: Bits)
    ensures Unhash(Hash(id)) == id && Hash(Unhash(address)) == address
    ensures Hash(id) == address <==> Unhash(address) == id
  {
    assert Unhash(Hash(id)) == id;
    assert Hash(Unhash(address)) == address;
  }
}
