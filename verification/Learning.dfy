// What a node learns from a neighbor, what it advertises of what it knows, and what it marks when
// a neighbor fails.
module Learning {
  import opened Wrappers
  import opened Bits
  import opened Routing
  import opened Allocation

  // No network known at the level has a smaller id.
  ghost predicate AtMostAll(id: int, level: seq<RoutingEntry>) {
    id <= INFINITO && forall j :: 0 <= j < |level| ==> id <= level[j].networkId
  }

  // All networks known there have larger ids.
  ghost predicate BelowAll(id: int, level: seq<RoutingEntry>) {
    id < INFINITO && forall j :: 0 <= j < |level| ==> id < level[j].networkId
  }

  lemma LeastMeans(level: seq<RoutingEntry>, id: int)
    ensures id <= LeastNetwork(level) <==> AtMostAll(id, level)
    ensures id < LeastNetwork(level) <==> BelowAll(id, level)
  {
  }

  // Insertion lists an address and keeps what was there.
  lemma InsertLists(level: seq<RoutingEntry>, e: RoutingEntry)
    requires Sorted(level)
    ensures forall add: Bits :: Listed(Insert(level, e), add) <==> Listed(level, add) || add == e.nextHopAdd
    ensures forall x :: x in Insert(level, e) <==> x in level || (x == e && !Listed(level, e.nextHopAdd))
  {
    InsertMembers(level, e);
    InsertAdds(level, e);
    var after := Insert(level, e);
    if !Listed(level, e.nextHopAdd) {
      assert e in multiset(after);
    }
    forall add: Bits
      ensures Listed(after, add) <==> Listed(level, add) || add == e.nextHopAdd
    {
      ListedIn(after, add);
      ListedIn(level, add);
    }
  }

  lemma ListedIn(level: seq<RoutingEntry>, add: Bits)
    ensures Listed(level, add) <==> exists x :: x in level && x.nextHopAdd == add
  {
    if Listed(level, add) {
      var i :| 0 <= i < |level| && level[i].nextHopAdd == add;
      assert level[i] in level;
    }
    if exists x :: x in level && x.nextHopAdd == add {
      var x :| x in level && x.nextHopAdd == add;
      var i :| 0 <= i < |level| && level[i] == x;
      assert level[i].nextHopAdd == add;
    }
  }

  // ---------- the level of the neighbor itself ----------

  // The neighbor's own network is taken in where no smaller one is known, if the link is good
  // enough.
  ghost predicate TakesIn(level: seq<RoutingEntry>, n: Neighbor, d: nat, etx: bool)
    requires d < ADDR_SIZE
  {
    AtMostAll(n.LevelId(d), level) && (etx ==> n.etx + 1.0 < RTR_ETX_MAX)
  }

  // One hop, over the neighbor, crossing level d only.
  ghost predicate OneHop(e: RoutingEntry, n: Neighbor, d: nat)
    requires d < ADDR_SIZE
  {
    && e.nextHopAdd == n.address && e.nextHopId == n.id && e.networkId == n.LevelId(d) && e.hopNumber == 1
    && e.etxMetric == n.etx && e.interface == n.interface && !e.macFailed
    && forall j :: 0 <= j < ADDR_SIZE ==> (e.routeLog[j] <==> j == d)
  }

  lemma NeighborLearned(level: seq<RoutingEntry>, n: Neighbor, d: nat, etx: bool)
    requires Sorted(level) && d < ADDR_SIZE
    ensures var after := Direct(level, n, d, etx);
            && (forall add: Bits :: Listed(after, add) <==>
                  Listed(level, add) || (add == n.address && TakesIn(level, n, d, etx)))
            && (forall x :: x in level ==> x in after)
            && (forall x :: x in after && x !in level ==> OneHop(x, n, d))
  {
    var e := DirectEntry(n, d);
    LeastMeans(level, n.LevelId(d));
    HoldsIsListed(level, n.address);
    InsertLists(level, e);
    DirectIs(n, d);
  }

  lemma DirectIs(n: Neighbor, d: nat)
    requires d < ADDR_SIZE
    ensures OneHop(DirectEntry(n, d), n, d)
  {
  }

  lemma HoldsIsListed(level: seq<RoutingEntry>, add: Bits)
    ensures Holds(level, add) <==> Listed(level, add)
  {
  }

  // ---------- what the neighbor advertises above that level ----------

  // The neighbor has a route at level i that has not crossed level d.
  ghost predicate Offers(n: Neighbor, i: nat, d: nat)
    requires d < ADDR_SIZE && i < ADDR_SIZE
  {
    n.table[i].hopNumber < INFINITO && !n.table[i].routeLog[d]
  }

  // It leads into a network of smaller id than all that are known.
  ghost predicate Displaces(level: seq<RoutingEntry>, n: Neighbor, i: nat, d: nat)
    requires d < ADDR_SIZE && i < ADDR_SIZE
  {
    Offers(n, i, d) && BelowAll(n.NetworkId(i), level)
  }

  ghost predicate TakesOver(level: seq<RoutingEntry>, n: Neighbor, i: nat, d: nat, etx: bool)
    requires d < ADDR_SIZE && i < ADDR_SIZE
  {
    Offers(n, i, d) && AtMostAll(n.NetworkId(i), level) && (etx ==> n.etx + n.Etx(i) < RTR_ETX_MAX)
  }

  // One hop more than the neighbor, crossing level d and no lower one.
  ghost predicate OneHopMore(e: RoutingEntry, n: Neighbor, i: nat, d: nat)
    requires d < ADDR_SIZE && i < ADDR_SIZE
  {
    && e.nextHopAdd == n.address && e.nextHopId == n.id && e.networkId == n.NetworkId(i)
    && e.hopNumber == n.table[i].hopNumber + 1 && e.etxMetric == n.Etx(i) + n.etx && !e.macFailed
    && e.interface == n.Interface(i)
    && forall j :: 0 <= j < ADDR_SIZE ==> (e.routeLog[j] <==> j == d || (j > d && n.table[i].routeLog[j]))
  }

  lemma RouteLearned(level: seq<RoutingEntry>, n: Neighbor, i: nat, d: nat, etx: bool)
    requires Sorted(level) && d < ADDR_SIZE && i < ADDR_SIZE
    ensures var after := Relay(level, n, i, d, etx);
            && (forall add: Bits :: Listed(after, add) <==>
                  || (Listed(level, add) && !Displaces(level, n, i, d))
                  || (add == n.address && TakesOver(level, n, i, d, etx)))
            && (forall x :: x in level && !Displaces(level, n, i, d) ==> x in after)
            && (forall x :: x in after && (x !in level || Displaces(level, n, i, d)) ==> OneHopMore(x, n, i, d))
  {
    if Displaces(level, n, i, d) {
      RouteDisplaces(level, n, i, d, etx);
    } else {
      RouteJoins(level, n, i, d, etx);
    }
  }

  lemma RouteDisplaces(level: seq<RoutingEntry>, n: Neighbor, i: nat, d: nat, etx: bool)
    requires d < ADDR_SIZE && i < ADDR_SIZE && Displaces(level, n, i, d)
    ensures var after := Relay(level, n, i, d, etx);
            && (forall add: Bits :: Listed(after, add) <==> add == n.address && TakesOver(level, n, i, d, etx))
            && (forall x :: x in after ==> OneHopMore(x, n, i, d))
  {
    var e := RelayedEntry(n, i, d);
    LeastMeans(level, n.NetworkId(i));
    RelayedIs(n, i, d);
    InsertLists([], e);
    assert forall add: Bits :: !Listed([], add);
  }

  lemma RouteJoins(level: seq<RoutingEntry>, n: Neighbor, i: nat, d: nat, etx: bool)
    requires Sorted(level) && d < ADDR_SIZE && i < ADDR_SIZE && !Displaces(level, n, i, d)
    ensures var after := Relay(level, n, i, d, etx);
            && (forall add: Bits :: Listed(after, add) <==>
                  Listed(level, add) || (add == n.address && TakesOver(level, n, i, d, etx)))
            && (forall x :: x in level ==> x in after)
            && (forall x :: x in after && x !in level ==> OneHopMore(x, n, i, d))
  {
    RelayKeeps(level, n, i, d, etx);
    if Offers(n, i, d) { RelayedIs(n, i, d); }
    InsertLists(level, RelayedEntry(n, i, d));
  }

  lemma RelayKeeps(level: seq<RoutingEntry>, n: Neighbor, i: nat, d: nat, etx: bool)
    requires d < ADDR_SIZE && i < ADDR_SIZE && !Displaces(level, n, i, d)
    ensures Relay(level, n, i, d, etx)
         == if TakesOver(level, n, i, d, etx) then Insert(level, RelayedEntry(n, i, d)) else level
  {
    LeastMeans(level, n.NetworkId(i));
  }

  lemma RelayedIs(n: Neighbor, i: nat, d: nat)
    requires d < ADDR_SIZE && i < ADDR_SIZE && Offers(n, i, d)
    ensures OneHopMore(RelayedEntry(n, i, d), n, i, d)
  {
  }

  // ---------- a whole table ----------

  // Below the level of the neighbor nothing changes; at it, and above, what has been said.
  lemma TableLearned(t: Table, own: Bits, n: Neighbor, etx: bool, i: nat)
    requires i < ADDR_SIZE && Sorted(t[i])
    ensures var d := DiffBit(own, n.address);
            var after := SetUpdate(t, own, n, etx)[i];
            && (i < d || d == -1 ==> after == t[i])
            && (i == d ==> forall add: Bits :: Listed(after, add) <==>
                  Listed(t[i], add) || (add == n.address && TakesIn(t[i], n, d, etx)))
            && (0 <= d < i ==> forall add: Bits :: Listed(after, add) <==>
                  || (Listed(t[i], add) && !Displaces(t[i], n, i, d))
                  || (add == n.address && TakesOver(t[i], n, i, d, etx)))
  {
    var d := DiffBit(own, n.address);
    if d == i { NeighborLearned(t[i], n, d, etx); }
    if 0 <= d < i { RouteLearned(t[i], n, i, d, etx); }
  }

  // So a fresh node that hears its first neighbor over a good link has an entry for it.
  lemma FirstNeighborKnown(own: Bits, n: Neighbor, etx: bool)
    requires own != n.address && n.id <= INFINITO && (etx ==> n.etx + 1.0 < RTR_ETX_MAX)
    ensures var d := DiffBit(own, n.address);
            d >= 0 && Listed(SetUpdate(EMPTY, own, n, etx)[d], n.address)
  {
    DiffZero(own, n.address);
    var d := DiffBit(own, n.address);
    assert EMPTY[d] == [];
    TableLearned(EMPTY, own, n, etx, d);
  }

  // ---------- hearing all neighbors in turn ----------

  // Without the link metric no level that has an entry is ever left without.
  lemma NeverEmptied(t: Table, own: Bits, n: Neighbor, i: nat)
    requires GoodTable(t, own) && i < ADDR_SIZE && t[i] != []
    ensures SetUpdate(t, own, n, false)[i] != []
  {
    assert GoodLevel(t[i], i, own);
    var d := DiffBit(own, n.address);
    var add := t[i][0].nextHopAdd;
    assert Listed(t[i], add);
    TableLearned(t, own, n, false, i);
    if 0 <= d < i && Displaces(t[i], n, i, d) {
      assert TakesOver(t[i], n, i, d, false);
      assert Listed(SetUpdate(t, own, n, false)[i], n.address);
    }
  }

  // The level at which a neighbor lives has an entry once the neighbor has been heard.
  lemma LevelKnown(t: Table, own: Bits, n: Neighbor, i: nat)
    requires GoodTable(t, own) && GoodNeighbor(n) && i < ADDR_SIZE
    requires t[i] != [] || DiffBit(own, n.address) == i
    ensures SetUpdate(t, own, n, false)[i] != []
  {
    if t[i] != [] {
      NeverEmptied(t, own, n, i);
    } else {
      assert GoodLevel(t[i], i, own);
      TableLearned(t, own, n, false, i);
      assert TakesIn(t[i], n, i, false);
      assert Listed(SetUpdate(t, own, n, false)[i], n.address);
    }
  }

  // Then every level at which some neighbor lives has an entry once all have been heard.
  lemma {:induction false} NeighborsKnown(t: Table, own: Bits, ns: seq<Neighbor>, k: nat)
    requires GoodTable(t, own) && GoodNeighbors(ns) && k < |ns| && own != ns[k].address
    ensures var d := DiffBit(own, ns[k].address);
            d >= 0 && Learned(t, own, ns, false)[d] != []
  {
    DiffZero(own, ns[k].address);
    var last, rest := ns[|ns| - 1], ns[..|ns| - 1];
    var before := Learned(t, own, rest, false);
    LearnedGood(t, own, rest, false);
    if k < |rest| { NeighborsKnown(t, own, rest, k); }
    LevelKnown(before, own, last, DiffBit(own, ns[k].address));
  }

  // ---------- what is advertised of a level ----------

  // Entry k is as good as entry j: a smaller network, or as good a way into the same one.
  predicate AsGood(level: seq<RoutingEntry>, k: nat, j: nat, etx: bool)
    requires k < |level| && j < |level|
  {
    || level[k].networkId < level[j].networkId
    || (level[k].networkId == level[j].networkId
        && if etx then level[k].etxMetric <= level[j].etxMetric else level[k].hopNumber <= level[j].hopNumber)
  }

  // The last entry over one of several interfaces puts aside all before it.
  predicate Counts(level: seq<RoutingEntry>, j: nat)
    requires j < |level|
  {
    forall l :: j < l < |level| ==> level[l].interface >= MAXINTERF
  }

  // Of the entries that count, entry k is the first of the best.
  ghost predicate BestOf(level: seq<RoutingEntry>, k: nat, etx: bool) {
    && k < |level| && Counts(level, k)
    && (forall j :: 0 <= j < |level| && Counts(level, j) ==> AsGood(level, k, j, etx))
    && (forall j :: 0 <= j < k && Counts(level, j) ==> !AsGood(level, j, k, etx))
  }

  // What stands for a level in an advert is its best entry.
  lemma {:induction false} SummaryIsBest(level: seq<RoutingEntry>, etx: bool) returns (k: nat)
    requires level != [] && forall j :: 0 <= j < |level| ==> level[j].networkId < INFINITO
    ensures BestOf(level, k, etx) && Summary(level, etx) == AsRecord(level[k])
  {
    var n := |level| - 1;
    var rest, last := level[..n], level[n];
    if rest == [] {
      k := 0;
      assert Supersedes(last, ABSENT, etx);
    } else {
      var m := SummaryIsBest(rest, etx);
      k := if Supersedes(last, AsRecord(rest[m]), etx) then n else m;
      BestOfMore(level, m, k, etx);
    }
  }

  lemma BestOfMore(level: seq<RoutingEntry>, m: nat, k: nat, etx: bool)
    requires |level| >= 2 && BestOf(level[..|level| - 1], m, etx)
    requires k == if Supersedes(level[|level| - 1], AsRecord(level[m]), etx) then |level| - 1 else m
    ensures BestOf(level, k, etx)
  {
    var n := |level| - 1;
    var rest := level[..n];
    assert forall j :: 0 <= j < n ==> rest[j] == level[j];
    forall j | 0 <= j < n
      ensures Counts(level, j) <==> Counts(rest, j) && level[n].interface >= MAXINTERF
    {
      CountsMore(level, j);
    }
    forall j | 0 <= j < |level| && Counts(level, j)
      ensures AsGood(level, k, j, etx)
    {
      if j < n { assert AsGood(rest, m, j, etx); }
    }
    forall j | 0 <= j < k && Counts(level, j)
      ensures !AsGood(level, j, k, etx)
    {
      assert AsGood(rest, m, j, etx);
      if k == m { assert !AsGood(rest, j, m, etx); }
    }
  }

  lemma CountsMore(level: seq<RoutingEntry>, j: nat)
    requires j < |level| - 1
    ensures Counts(level, j) <==> Counts(level[..|level| - 1], j) && level[|level| - 1].interface >= MAXINTERF
  {
    var rest := level[..|level| - 1];
    assert forall l :: 0 <= l < |rest| ==> rest[l] == level[l];
  }

  // ---------- what is marked ----------

  // A failed neighbor's entries are marked, and made worse; no other entry is touched.
  lemma MarksExactly(t: Table, id: int, i: nat, j: nat)
    requires i < ADDR_SIZE && j < |t[i]|
    ensures |MacFailed(t, id)[i]| == |t[i]|
    ensures var e, x := t[i][j], MacFailed(t, id)[i][j];
            && (e.nextHopId != id ==> x == e)
            && (e.nextHopId == id ==> x.macFailed && x.etxMetric > e.etxMetric
                                      && x.(macFailed := e.macFailed, etxMetric := e.etxMetric) == e)
  {
  }

  // ---------- who objects to an address ----------

  // The node's own id, or the id of a network it knows below level d.
  ghost predicate KnownBelow(t: Table, d: nat, id: int, x: int)
    requires d <= ADDR_SIZE
  {
    x == id || exists i, j :: 0 <= i < d && 0 <= j < |t[i]| && t[i][j].networkId == x
  }

  // LevelId is the least of those.
  lemma {:induction false} LevelIdMeans(t: Table, d: nat, id: int)
    requires d <= ADDR_SIZE
    ensures KnownBelow(t, d, id, LevelId(t, d, id))
    ensures forall x :: KnownBelow(t, d, id, x) ==> LevelId(t, d, id) <= x
  {
    if d > 0 {
      var least := LeastFrom(t[d - 1], id);
      LevelIdMeans(t, d - 1, least);
      forall x | KnownBelow(t, d, id, x)
        ensures LevelId(t, d, id) <= x
      {
        if x != id {
          var i, j :| 0 <= i < d && 0 <= j < |t[i]| && t[i][j].networkId == x;
          if i < d - 1 { assert KnownBelow(t, d - 1, least, x); }
        }
      }
    }
  }

  // A neighbor objects to an address exactly if it has it under a smaller id, or knows, at the
  // level between them, a network whose id is smaller than every id that the node could claim.
  lemma ObjectsMeans(n: Neighbor, t: Table, own: Bits, id: int)
    ensures var d := DiffBit(own, n.address);
            Objects(n, t, own, id) <==>
              if own == n.address then n.id < id
              else n.table[d].hopNumber < INFINITO && forall x :: KnownBelow(t, d, id, x) ==> n.NetworkId(d) < x
  {
    DiffZero(own, n.address);
    var d := DiffBit(own, n.address);
    if d >= 0 { LevelIdMeans(t, d, id); }
  }

  // ---------- which address is taken ----------

  // The first neighbor that has a candidate gives it, the highest at which there is one.
  lemma {:induction false} FirstCandidate(ns: seq<Neighbor>, id: int, etx: bool, from: nat)
    returns (m: nat, i: nat)
    requires from <= |ns| && Select(from, ns, id, etx).Some?
    ensures from <= m < |ns| && Candidate(ns, id, etx, m, i)
    ensures Select(from, ns, id, etx) == Some(Flip(ns[m].address, i))
    ensures forall l: nat, j: nat :: from <= l && Candidate(ns, id, etx, l, j) ==> m < l || (l == m && j <= i)
    decreases |ns| - from
  {
    if from == |ns| { NoMore(ns, id, etx); }
    SelectNext(from, ns, id, etx);
    if Offer(ns[from], ns, id, etx).Some? {
      m := from;
      i := HighestOffer(ns, id, etx, from);
    } else {
      OfferFinds(ns, id, etx, from);
      m, i := FirstCandidate(ns, id, etx, from + 1);
      forall l: nat, j: nat | from <= l && Candidate(ns, id, etx, l, j)
        ensures m < l || (l == m && j <= i)
      {
        assert NoCandidate(ns, id, etx, from);
        assert l != from;
      }
    }
  }

  lemma HighestOffer(ns: seq<Neighbor>, id: int, etx: bool, m: nat) returns (i: nat)
    requires m < |ns| && Offer(ns[m], ns, id, etx).Some?
    ensures Candidate(ns, id, etx, m, i) && Offer(ns[m], ns, id, etx) == Some(Flip(ns[m].address, i))
    ensures forall j: nat :: Candidate(ns, id, etx, m, j) ==> j <= i
  {
    i := HighestBelow(ns[m], ns[m].InsertionPoint() + 1, ns, id, etx);
  }

  lemma {:induction false} HighestBelow(n: Neighbor, k: nat, ns: seq<Neighbor>, id: int, etx: bool) returns (i: nat)
    requires k <= ADDR_SIZE && TryBelow(n, k, ns, id, etx).Some?
    ensures i < k && Fits(n, i, ns, id, etx) && TryBelow(n, k, ns, id, etx) == Some(Flip(n.address, i))
    ensures forall j :: i < j < k ==> !Fits(n, j, ns, id, etx)
  {
    if Fits(n, k - 1, ns, id, etx) { i := k - 1; } else { i := HighestBelow(n, k - 1, ns, id, etx); }
  }
}
