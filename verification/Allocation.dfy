// How a node comes by its address: it keeps the one it has while no neighbor objects, and
// otherwise takes a free place next to a neighbor.
module Allocation {
  import opened Wrappers
  import opened Bits
  import opened Routing
  import opened RoutingTables

  const LQE_THRESHOLD: real := 0.6

  // A neighbor objects to an address that it has itself under a smaller id, or that lies
  // in a network it knows under a smaller id.
  predicate Objects(n: Neighbor, t: Table, own: Bits, id: int) {
    var d := DiffBit(own, n.address);
    if d == -1 then n.id < id
    else n.EntryPresent(d) && n.NetworkId(d) < LevelId(t, d, id)
  }

  predicate Heeded(n: Neighbor, etx: bool) { etx ==> n.quality >= LQE_THRESHOLD }

  predicate Eligible(n: Neighbor, etx: bool) { etx ==> n.quality > LQE_THRESHOLD }

  predicate Validates(ns: seq<Neighbor>, t: Table, own: Bits, id: int, etx: bool) {
    forall i | 0 <= i < |ns| :: Heeded(ns[i], etx) ==> !Objects(ns[i], t, own, id)
  }

  function Flip(b: Bits, i: nat): Bits
    requires i < ADDR_SIZE
  { b[i := !b[i]] }

  // Whether the address next to n at level i would do.
  predicate Fits(n: Neighbor, i: nat, ns: seq<Neighbor>, id: int, etx: bool)
    requires i < ADDR_SIZE
  {
    Validates(ns, SetUpdate(EMPTY, Flip(n.address, i), n, etx), Flip(n.address, i), id, etx)
  }

  // The highest of the k lowest levels at which it would.
  function TryBelow(n: Neighbor, k: nat, ns: seq<Neighbor>, id: int, etx: bool): Option<Bits>
    requires k <= ADDR_SIZE
  {
    if k == 0 then None
    else if Fits(n, k - 1, ns, id, etx) then Some(Flip(n.address, k - 1))
    else TryBelow(n, k - 1, ns, id, etx)
  }

  function Offer(n: Neighbor, ns: seq<Neighbor>, id: int, etx: bool): Option<Bits> {
    if Eligible(n, etx) then TryBelow(n, n.InsertionPoint() + 1, ns, id, etx) else None
  }

  // The first offer of the neighbors from the j-th on.
  function Select(j: nat, ns: seq<Neighbor>, id: int, etx: bool): Option<Bits>
    requires j <= |ns|
    decreases |ns| - j
  {
    if j == |ns| then None
    else
      var r := Offer(ns[j], ns, id, etx);
      if r.Some? then r else Select(j + 1, ns, id, etx)
  }

  // ---------- what an allocated address is ----------

  // The address next to the j-th neighbor at level i, up to where that one has room, would do.
  ghost predicate Candidate(ns: seq<Neighbor>, id: int, etx: bool, j: nat, i: nat) {
    && j < |ns| && Eligible(ns[j], etx) && i <= ns[j].InsertionPoint() && Fits(ns[j], i, ns, id, etx)
  }

  lemma {:induction false} TryBelowFinds(n: Neighbor, k: nat, ns: seq<Neighbor>, id: int, etx: bool)
    requires k <= ADDR_SIZE
    ensures var r := TryBelow(n, k, ns, id, etx);
            if r.None? then forall i :: 0 <= i < k ==> !Fits(n, i, ns, id, etx)
            else exists i :: 0 <= i < k && Fits(n, i, ns, id, etx) && r.value == Flip(n.address, i)
  {
    if k > 0 { TryBelowFinds(n, k - 1, ns, id, etx); }
  }

  lemma OfferFinds(ns: seq<Neighbor>, id: int, etx: bool, j: nat)
    requires j < |ns|
    ensures var r := Offer(ns[j], ns, id, etx);
            if r.None? then NoCandidate(ns, id, etx, j) else Given(ns, id, etx, r.value)
  {
    TryBelowFinds(ns[j], ns[j].InsertionPoint() + 1, ns, id, etx);
    var r := Offer(ns[j], ns, id, etx);
    if r.Some? {
      var i :| 0 <= i < ns[j].InsertionPoint() + 1 && Fits(ns[j], i, ns, id, etx) && r.value == Flip(ns[j].address, i);
      assert Candidate(ns, id, etx, j, i);
    }
  }

  ghost predicate NoCandidate(ns: seq<Neighbor>, id: int, etx: bool, j: nat) {
    forall i: nat :: !Candidate(ns, id, etx, j, i)
  }

  ghost predicate Given(ns: seq<Neighbor>, id: int, etx: bool, b: Bits) {
    exists j: nat, i: nat :: Candidate(ns, id, etx, j, i) && b == Flip(ns[j].address, i)
  }

  ghost predicate NoCandidates(ns: seq<Neighbor>, id: int, etx: bool, j: nat) {
    forall m: nat :: j <= m ==> NoCandidate(ns, id, etx, m)
  }

  lemma NextNoCandidate(ns: seq<Neighbor>, id: int, etx: bool, j: nat)
    requires NoCandidate(ns, id, etx, j) && NoCandidates(ns, id, etx, j + 1)
    ensures NoCandidates(ns, id, etx, j)
  {
    forall m: nat | j <= m
      ensures NoCandidate(ns, id, etx, m)
    {
      assert m == j || j + 1 <= m;
    }
  }

  lemma {:induction false} SelectFinds(j: nat, ns: seq<Neighbor>, id: int, etx: bool)
    requires j <= |ns|
    ensures var r := Select(j, ns, id, etx);
            if r.None? then NoCandidates(ns, id, etx, j) else Given(ns, id, etx, r.value)
    decreases |ns| - j
  {
    if j == |ns| {
      NoMore(ns, id, etx);
    } else {
      SelectFinds(j + 1, ns, id, etx);
      OfferFinds(ns, id, etx, j);
      SelectNext(j, ns, id, etx);
      if Offer(ns[j], ns, id, etx).None? && Select(j + 1, ns, id, etx).None? { NextNoCandidate(ns, id, etx, j); }
    }
  }

  lemma NoMore(ns: seq<Neighbor>, id: int, etx: bool)
    ensures Select(|ns|, ns, id, etx).None? && NoCandidates(ns, id, etx, |ns|)
  {
  }

  lemma SelectNext(j: nat, ns: seq<Neighbor>, id: int, etx: bool)
    requires j < |ns|
    ensures Select(j, ns, id, etx)
         == if Offer(ns[j], ns, id, etx).Some? then Offer(ns[j], ns, id, etx) else Select(j + 1, ns, id, etx)
  {
  }

  // An address is found if and only if there is a candidate; the one found lies at the
  // level in question from the neighbor it was taken from, and is not the address of any
  // heeded neighbor of smaller id.
  lemma SelectIsFree(ns: seq<Neighbor>, id: int, etx: bool)
    ensures var r := Select(0, ns, id, etx);
            && (r.Some? <==> exists m: nat, i: nat :: Candidate(ns, id, etx, m, i))
            && (r.Some? ==>
                  && (exists m: nat, i: nat :: Candidate(ns, id, etx, m, i) && DiffBit(r.value, ns[m].address) == i)
                  && (forall k :: 0 <= k < |ns| && Heeded(ns[k], etx) && ns[k].id < id ==> ns[k].address != r.value))
  {
    var r := Select(0, ns, id, etx);
    SelectFinds(0, ns, id, etx);
    if r.Some? {
      var m: nat, i: nat :| Candidate(ns, id, etx, m, i) && r.value == Flip(ns[m].address, i);
      DiffIs(r.value, ns[m].address, i);
      forall k | 0 <= k < |ns| && Heeded(ns[k], etx) && ns[k].id < id
        ensures ns[k].address != r.value
      {
        DiffZero(r.value, ns[k].address);
        assert !Objects(ns[k], SetUpdate(EMPTY, r.value, ns[m], etx), r.value, id);
      }
    } else if exists m: nat, i: nat :: Candidate(ns, id, etx, m, i) {
      var m: nat, i: nat :| Candidate(ns, id, etx, m, i);
      assert NoCandidate(ns, id, etx, m);
    }
  }

  // ---------- the node ----------

  class Ndp {
    const aspu: Aspu
    const routingTable: RoutingTable
    var neighborSet: seq<Neighbor>

    constructor (aspu: Aspu, routingTable: RoutingTable)
      requires routingTable.aspu == aspu
      ensures this.aspu == aspu && this.routingTable == routingTable && neighborSet == []
      ensures Wired()
    {
      this.aspu, this.routingTable, neighborSet := aspu, routingTable, [];
    }

    ghost predicate Wired() { routingTable.aspu == aspu }

    method NeighborLookup(id: int) returns (k: nat)
      ensures k <= |neighborSet| && (forall j :: 0 <= j < k ==> neighborSet[j].id != id)
      ensures k < |neighborSet| ==> neighborSet[k].id == id
    {
      k := 0;
      while k < |neighborSet|
        invariant k <= |neighborSet| && forall j :: 0 <= j < k ==> neighborSet[j].id != id
      {
        if neighborSet[k].id == id { return; }
        k := k + 1;
      }
    }

    // What was known of a neighbor is replaced by what it says now.
    method NeighborInsert(n: Neighbor)
      modifies this`neighborSet
      ensures neighborSet == Heard(old(neighborSet), n)
      ensures OnePerId(old(neighborSet)) ==> OnePerId(neighborSet)
    {
      var k := NeighborLookup(n.id);
      if k == |neighborSet| { neighborSet := neighborSet + [n]; }
      else { neighborSet := neighborSet[k := n]; }
      HeardAt(old(neighborSet), n, k);
      if OnePerId(old(neighborSet)) { HeardOnce(old(neighborSet), n); }
    }

    method ValidateAddress() returns (ok: bool)
      requires Wired()
      ensures ok == Validates(neighborSet, routingTable.table, aspu.address, aspu.id, aspu.etxMetric)
    {
      var k := 0;
      while k < |neighborSet|
        invariant k <= |neighborSet|
        invariant forall i :: 0 <= i < k ==> Heeded(neighborSet[i], aspu.etxMetric) ==>
                    !Objects(neighborSet[i], routingTable.table, aspu.address, aspu.id)
      {
        var n := neighborSet[k];
        if (aspu.etxMetric && n.quality >= LQE_THRESHOLD) || !aspu.etxMetric {
          var d := FindDiffBit(aspu.address, n.address);
          if d == -1 {
            if n.id < aspu.id { return false; }
          } else if n.EntryPresent(d) {
            var least := routingTable.LevelId(d);
            if n.NetworkId(d) < least { return false; }
          }
        }
        k := k + 1;
      }
      return true;
    }

    method SelectAddress()
      requires Wired() && routingTable.table == EMPTY && aspu.address == aspu.oldAddress
      modifies aspu`address, routingTable`table
      ensures var r := Select(0, neighborSet, aspu.id, aspu.etxMetric);
              aspu.address == if r.Some? then r.value else aspu.oldAddress
    {
      var j := 0;
      while j < |neighborSet|
        invariant j <= |neighborSet| && routingTable.table == EMPTY && aspu.address == aspu.oldAddress
        invariant Select(j, neighborSet, aspu.id, aspu.etxMetric) == Select(0, neighborSet, aspu.id, aspu.etxMetric)
      {
        var n := neighborSet[j];
        if (aspu.etxMetric && n.quality > LQE_THRESHOLD) || !aspu.etxMetric {
          var found := TryNeighbor(n);
          if found { return; }
        }
        j := j + 1;
      }
    }

    method TryNeighbor(n: Neighbor) returns (found: bool)
      requires Wired() && routingTable.table == EMPTY && aspu.address == aspu.oldAddress
      modifies aspu`address, routingTable`table
      ensures var r := TryBelow(n, n.InsertionPoint() + 1, neighborSet, aspu.id, aspu.etxMetric);
              && found == r.Some?
              && aspu.address == (if found then r.value else aspu.oldAddress)
              && (!found ==> routingTable.table == EMPTY)
    {
      var i := n.InsertionPoint();
      while i > -1
        invariant -1 <= i <= n.InsertionPoint() && routingTable.table == EMPTY && aspu.address == aspu.oldAddress
        invariant TryBelow(n, i + 1, neighborSet, aspu.id, aspu.etxMetric)
               == TryBelow(n, n.InsertionPoint() + 1, neighborSet, aspu.id, aspu.etxMetric)
      {
        found := TryPlace(n, i);
        if found { return; }
        i := i - 1;
      }
      found := false;
    }

    // The place next to n at level i.
    method TryPlace(n: Neighbor, i: nat) returns (found: bool)
      requires Wired() && routingTable.table == EMPTY && aspu.address == aspu.oldAddress && i < ADDR_SIZE
      modifies aspu`address, routingTable`table
      ensures found == Fits(n, i, neighborSet, aspu.id, aspu.etxMetric)
      ensures aspu.address == if found then Flip(n.address, i) else aspu.oldAddress
      ensures !found ==> routingTable.table == EMPTY
    {
      aspu.address := Flip(n.address, i);
      routingTable.SetUpdate(n);
      found := ValidateAddress();
      if !found {
        aspu.address := aspu.oldAddress;
        routingTable.Clear();
      }
    }

    // ASPU::validateAddress
    method Revalidate()
      requires Wired()
      modifies aspu`address, aspu`oldAddress, routingTable`table
      ensures aspu.address == Reallocated(old(aspu.address), old(routingTable.table), neighborSet, aspu.id,
                                          aspu.etxMetric)
      ensures aspu.oldAddress == if Validates(neighborSet, old(routingTable.table), old(aspu.address), aspu.id,
                                              aspu.etxMetric)
                                 then old(aspu.oldAddress) else old(aspu.address)
      ensures routingTable.table == EMPTY && routingTable.Valid()
    {
      var ok := ValidateAddress();
      if !ok {
        routingTable.Clear();
        aspu.oldAddress := aspu.address;
        SelectAddress();
      }
      routingTable.Clear();
    }

    method UpdateRoutingTable()
      requires Wired()
      modifies routingTable`table
      ensures routingTable.table == Learned(old(routingTable.table), aspu.address, neighborSet, aspu.etxMetric)
    {
      ghost var t := routingTable.table;
      var k := 0;
      while k < |neighborSet|
        invariant k <= |neighborSet|
        invariant routingTable.table == Learned(t, aspu.address, neighborSet[..k], aspu.etxMetric)
      {
        var n := neighborSet[k];
        assert neighborSet[..k + 1][..k] == neighborSet[..k];
        if (aspu.etxMetric && n.quality >= LQE_THRESHOLD) || !aspu.etxMetric { routingTable.SetUpdate(n); }
        k := k + 1;
      }
      assert neighborSet[..k] == neighborSet;
    }
  }

  // The address after validation.
  function Reallocated(own: Bits, t: Table, ns: seq<Neighbor>, id: int, etx: bool): Bits {
    if Validates(ns, t, own, id, etx) then own
    else
      var r := Select(0, ns, id, etx);
      if r.Some? then r.value else own
  }

  // The table after hearing out all neighbors in turn.
  function Learned(t: Table, own: Bits, ns: seq<Neighbor>, etx: bool): Table {
    if ns == [] then t
    else
      var n := ns[|ns| - 1];
      var before := Learned(t, own, ns[..|ns| - 1], etx);
      if Heeded(n, etx) then SetUpdate(before, own, n, etx) else before
  }

  function Heard(ns: seq<Neighbor>, n: Neighbor): seq<Neighbor> {
    if ns == [] then [n]
    else if ns[0].id == n.id then [n] + ns[1..]
    else [ns[0]] + Heard(ns[1..], n)
  }

  lemma {:induction false} HeardAt(ns: seq<Neighbor>, n: Neighbor, k: nat)
    requires k <= |ns| && (forall j :: 0 <= j < k ==> ns[j].id != n.id) && (k < |ns| ==> ns[k].id == n.id)
    ensures Heard(ns, n) == if k == |ns| then ns + [n] else ns[k := n]
  {
    if k > 0 {
      HeardAt(ns[1..], n, k - 1);
      if k < |ns| { assert ns[k := n] == [ns[0]] + ns[1..][k - 1 := n]; }
    }
  }

  // No id has two records.
  ghost predicate OnePerId(ns: seq<Neighbor>) { forall i, j :: 0 <= i < j < |ns| ==> ns[i].id != ns[j].id }

  // What is heard of a neighbor is its one record then; the others stay as they were.
  lemma {:induction false} HeardOnce(ns: seq<Neighbor>, n: Neighbor)
    requires OnePerId(ns)
    ensures OnePerId(Heard(ns, n))
    ensures forall m :: m in Heard(ns, n) <==> m == n || (m in ns && m.id != n.id)
  {
    if ns != [] {
      assert ns == [ns[0]] + ns[1..];
      assert forall i :: 0 <= i < |ns| - 1 ==> ns[1..][i] == ns[i + 1];
      if ns[0].id == n.id {
        assert forall m :: m in ns[1..] ==> m.id != n.id;
      } else {
        HeardOnce(ns[1..], n);
        var rest := Heard(ns[1..], n);
        forall i | 0 <= i < |rest|
          ensures rest[i].id != ns[0].id
        {
          assert rest[i] in rest;
        }
      }
    }
  }

  // ---------- the table of a node stays good ----------

  ghost predicate GoodNeighbors(ns: seq<Neighbor>) {
    forall i :: 0 <= i < |ns| ==> GoodNeighbor(ns[i])
  }

  lemma {:induction false} LearnedGood(t: Table, own: Bits, ns: seq<Neighbor>, etx: bool)
    requires GoodTable(t, own) && GoodNeighbors(ns)
    ensures GoodTable(Learned(t, own, ns, etx), own)
  {
    if ns != [] {
      LearnedGood(t, own, ns[..|ns| - 1], etx);
      if Heeded(ns[|ns| - 1], etx) {
        SetUpdateGood(Learned(t, own, ns[..|ns| - 1], etx), own, ns[|ns| - 1], etx);
      }
    }
  }

  lemma {:induction false} HeardGood(ns: seq<Neighbor>, n: Neighbor)
    requires GoodNeighbors(ns) && GoodNeighbor(n)
    ensures GoodNeighbors(Heard(ns, n))
  {
    if ns != [] && ns[0].id != n.id { HeardGood(ns[1..], n); }
  }
}
