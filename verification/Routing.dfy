// Routing tables and the records advertised about them: what updates and lookups do.
module Routing {
  import opened Bits

  const INFINITO: int := 0xFFFF
  const IP_BROADCAST: int := -1
  const MAXINTERF: nat := 3
  const NO_INTERFACE: nat := 255
  const RTR_ETX_MAX: real := 512.0

  datatype RoutingEntry = RoutingEntry(nextHopAdd: Bits, nextHopId: int, networkId: int, hopNumber: int,
                                       etxMetric: real, routeLog: Bits, interface: nat, macFailed: bool)

  // One level of an advertised table; absent when the hop number is INFINITO.
  datatype Record = Record(networkId: int, hopNumber: int, interface: nat, etxMetric: real, routeLog: Bits)

  const ABSENT := Record(INFINITO, INFINITO, NO_INTERFACE, RTR_ETX_MAX, ZEROS)

  type Advert = a: seq<Record> | |a| == 16 witness seq(16, _ => ABSENT)

  // A neighbor as last heard of; etx, quality and interface are those of the link to it.
  datatype Neighbor = Neighbor(id: int, address: Bits, table: Advert, etx: real, quality: real, interface: nat)
  {
    function Hop(i: nat): int
      requires i < ADDR_SIZE
    { if table[i].hopNumber < INFINITO then table[i].hopNumber else INFINITO }

    function EntryPresent(i: nat): bool
      requires i < ADDR_SIZE
    { table[i].hopNumber < INFINITO }

    function NetworkId(i: nat): int
      requires i < ADDR_SIZE
    { if EntryPresent(i) && table[i].networkId < INFINITO then table[i].networkId else INFINITO }

    function RouteLog(i: nat): Bits
      requires i < ADDR_SIZE
    { if EntryPresent(i) then table[i].routeLog else ZEROS }

    function Etx(i: nat): real
      requires i < ADDR_SIZE
    { if table[i].etxMetric < RTR_ETX_MAX then table[i].etxMetric else RTR_ETX_MAX }

    function Interface(i: nat): nat
      requires i < ADDR_SIZE
    { if table[i].interface < MAXINTERF then table[i].interface else NO_INTERFACE }

    // The smallest id among the node's own and the networks it knows below level n.
    function LevelId(n: nat): int
      requires n <= ADDR_SIZE
    { LeastKnown(table, n, id) }

    // The highest level at which it has no entry, or -1.
    function InsertionPoint(): int { Gap(table, ADDR_SIZE) }
  }

  function LeastKnown(table: Advert, n: nat, id: int): (r: int)
    requires n <= ADDR_SIZE
    ensures r <= id
    ensures forall i :: 0 <= i < n && table[i].hopNumber < INFINITO ==> r <= table[i].networkId
    ensures r == id || exists i :: 0 <= i < n && table[i].hopNumber < INFINITO && r == table[i].networkId
  {
    if n == 0 then id
    else if table[n - 1].hopNumber < INFINITO && table[n - 1].networkId < id then
      LeastKnown(table, n - 1, table[n - 1].networkId)
    else LeastKnown(table, n - 1, id)
  }

  function Gap(table: Advert, n: nat): (r: int)
    requires n <= ADDR_SIZE
    ensures -1 <= r < n && (r >= 0 ==> table[r].hopNumber == INFINITO)
    ensures forall i :: r < i < n ==> table[i].hopNumber != INFINITO
  {
    if n == 0 then -1 else if table[n - 1].hopNumber == INFINITO then n - 1 else Gap(table, n - 1)
  }

  // ---------- one level of a table: entries in ascending order of address ----------

  ghost predicate Sorted(level: seq<RoutingEntry>) {
    forall i, j :: 0 <= i < j < |level| ==> Value(level[i].nextHopAdd) < Value(level[j].nextHopAdd)
  }

  // Insertion into an ordered set: nothing happens if the address is there already.
  function Insert(level: seq<RoutingEntry>, e: RoutingEntry): seq<RoutingEntry> {
    if level == [] then [e]
    else if Less(e.nextHopAdd, level[0].nextHopAdd) then [e] + level
    else if Less(level[0].nextHopAdd, e.nextHopAdd) then [level[0]] + Insert(level[1..], e)
    else level
  }

  ghost predicate Listed(level: seq<RoutingEntry>, add: Bits) {
    exists i :: 0 <= i < |level| && level[i].nextHopAdd == add
  }

  lemma ListedCons(head: RoutingEntry, rest: seq<RoutingEntry>, add: Bits)
    ensures Listed([head] + rest, add) <==> head.nextHopAdd == add || Listed(rest, add)
  {
    var level := [head] + rest;
    if Listed(level, add) {
      var i :| 0 <= i < |level| && level[i].nextHopAdd == add;
      assert i == 0 || rest[i - 1].nextHopAdd == add;
    }
    if Listed(rest, add) {
      var i :| 0 <= i < |rest| && rest[i].nextHopAdd == add;
      assert level[i + 1].nextHopAdd == add;
    }
    assert level[0] == head;
  }

  lemma SortedCons(head: RoutingEntry, rest: seq<RoutingEntry>)
    requires Sorted(rest) && forall x :: x in rest ==> Value(head.nextHopAdd) < Value(x.nextHopAdd)
    ensures Sorted([head] + rest)
  {
  }

  lemma {:induction false} InsertMembers(level: seq<RoutingEntry>, e: RoutingEntry)
    ensures forall x :: x in Insert(level, e) ==> x in level || x == e
    ensures forall x :: x in level ==> x in Insert(level, e)
  {
    if level != [] { InsertMembers(level[1..], e); }
  }

  lemma {:induction false} InsertKeepsSorted(level: seq<RoutingEntry>, e: RoutingEntry)
    requires Sorted(level)
    ensures Sorted(Insert(level, e))
  {
    if level != [] {
      var head, rest := level[0], level[1..];
      LessIsNumeric(e.nextHopAdd, head.nextHopAdd);
      LessIsNumeric(head.nextHopAdd, e.nextHopAdd);
      if Less(e.nextHopAdd, head.nextHopAdd) {
        SortedCons(e, level);
      } else if Less(head.nextHopAdd, e.nextHopAdd) {
        InsertKeepsSorted(rest, e);
        InsertMembers(rest, e);
        SortedCons(head, Insert(rest, e));
      }
    }
  }

  // The entry is added if and only if its address was not listed.
  lemma {:induction false} InsertAdds(level: seq<RoutingEntry>, e: RoutingEntry)
    requires Sorted(level)
    ensures Listed(level, e.nextHopAdd) ==> Insert(level, e) == level
    ensures !Listed(level, e.nextHopAdd) ==> multiset(Insert(level, e)) == multiset(level) + multiset{e}
  {
    if level != [] {
      var head, rest := level[0], level[1..];
      LessIsNumeric(e.nextHopAdd, head.nextHopAdd);
      LessIsNumeric(head.nextHopAdd, e.nextHopAdd);
      assert level == [head] + rest;
      if Less(e.nextHopAdd, head.nextHopAdd) {
        assert forall i :: 0 <= i < |level| ==> Value(level[i].nextHopAdd) >= Value(head.nextHopAdd);
      } else {
        ListedCons(head, rest, e.nextHopAdd);
        if Less(head.nextHopAdd, e.nextHopAdd) { InsertAdds(rest, e); }
      }
    }
  }

  // ---------- queries ----------

  function LeastNetwork(level: seq<RoutingEntry>): (r: int)
    ensures r <= INFINITO
    ensures forall i :: 0 <= i < |level| ==> r <= level[i].networkId
    ensures r == INFINITO || exists i :: 0 <= i < |level| && r == level[i].networkId
  {
    LeastFrom(level, INFINITO)
  }

  // The least of id and the network ids of a level.
  function LeastFrom(level: seq<RoutingEntry>, id: int): (r: int)
    ensures r <= id
    ensures forall i :: 0 <= i < |level| ==> r <= level[i].networkId
    ensures r == id || exists i :: 0 <= i < |level| && r == level[i].networkId
  {
    if level == [] then id
    else
      var last := level[|level| - 1];
      var r := LeastFrom(level[..|level| - 1], id);
      if last.networkId < r then last.networkId else r
  }

  type Table = t: seq<seq<RoutingEntry>> | |t| == 16 witness seq(16, _ => [])

  const EMPTY: Table := [[], [], [], [], [], [], [], [], [], [], [], [], [], [], [], []]

  // The least of id and the network ids of the n lowest levels.
  function LevelId(t: Table, n: nat, id: int): (r: int)
    requires n <= ADDR_SIZE
    ensures r <= id
  {
    if n == 0 then id else LevelId(t, n - 1, LeastFrom(t[n - 1], id))
  }

  // ---------- advertising a table ----------

  function AsRecord(e: RoutingEntry): Record {
    Record(e.networkId, e.hopNumber, e.interface, e.etxMetric, e.routeLog)
  }

  // Whether an entry replaces the record chosen so far.
  predicate Supersedes(e: RoutingEntry, best: Record, etx: bool) {
    || e.networkId < best.networkId
    || e.interface < MAXINTERF
    || (e.networkId == best.networkId
        && if etx then e.etxMetric < best.etxMetric else e.hopNumber < best.hopNumber)
  }

  function Summary(level: seq<RoutingEntry>, etx: bool): (r: Record)
    ensures r == ABSENT || exists i :: 0 <= i < |level| && r == AsRecord(level[i])
  {
    if level == [] then ABSENT
    else
      var last := level[|level| - 1];
      var best := Summary(level[..|level| - 1], etx);
      if Supersedes(last, best, etx) then AsRecord(last) else best
  }

  function Update(t: Table, etx: bool): Advert {
    seq(ADDR_SIZE, i requires 0 <= i < ADDR_SIZE => Summary(t[i], etx))
  }

  // ---------- taking over what a neighbor advertises ----------

  function Single(d: nat): Bits
    requires d < ADDR_SIZE
  { Raised(ZEROS, d) }

  function DirectEntry(n: Neighbor, d: nat): RoutingEntry
    requires d < ADDR_SIZE
  {
    RoutingEntry(n.address, n.id, n.LevelId(d), 1, n.etx, Single(d), n.interface, false)
  }

  predicate Holds(level: seq<RoutingEntry>, add: Bits) {
    exists i | 0 <= i < |level| :: level[i].nextHopAdd == add
  }

  // The neighbor itself, as the next hop into the sibling at level d.
  function Direct(level: seq<RoutingEntry>, n: Neighbor, d: nat, etx: bool): seq<RoutingEntry>
    requires d < ADDR_SIZE
  {
    if n.LevelId(d) > LeastNetwork(level) then level
    else if Holds(level, n.address) && n.LevelId(d) >= LeastNetwork(level) then level
    else if etx && n.etx + 1.0 >= RTR_ETX_MAX then level
    else Insert(level, DirectEntry(n, d))
  }

  function RelayedEntry(n: Neighbor, i: nat, d: nat): RoutingEntry
    requires d < ADDR_SIZE && i < ADDR_SIZE
  {
    RoutingEntry(n.address, n.id, n.NetworkId(i), n.Hop(i) + 1, n.Etx(i) + n.etx,
                 Raised(n.RouteLog(i), d), n.Interface(i), false)
  }

  // What the neighbor advertises at a level above d; a smaller network id displaces what
  // was known.
  function Relay(level: seq<RoutingEntry>, n: Neighbor, i: nat, d: nat, etx: bool): seq<RoutingEntry>
    requires d < ADDR_SIZE && i < ADDR_SIZE
  {
    if n.RouteLog(i)[d] || !n.EntryPresent(i) then level
    else
      var kept := if n.NetworkId(i) < LeastNetwork(level) then [] else level;
      if n.NetworkId(i) > LeastNetwork(kept) then kept
      else if etx && n.etx + n.Etx(i) >= RTR_ETX_MAX then kept
      else Insert(kept, RelayedEntry(n, i, d))
  }

  function SetUpdate(t: Table, own: Bits, n: Neighbor, etx: bool): Table {
    var d := DiffBit(own, n.address);
    if d == -1 then t
    else seq(ADDR_SIZE, i requires 0 <= i < ADDR_SIZE =>
               if i < d then t[i]
               else if i == d then Direct(t[i], n, d, etx)
               else Relay(t[i], n, i, d, etx))
  }

  function MarkFailed(level: seq<RoutingEntry>, id: int): seq<RoutingEntry> {
    seq(|level|, i requires 0 <= i < |level| =>
      if level[i].nextHopId == id then level[i].(macFailed := true, etxMetric := level[i].etxMetric + 1.0)
      else level[i])
  }

  function MacFailed(t: Table, id: int): Table {
    seq(ADDR_SIZE, i requires 0 <= i < ADDR_SIZE => MarkFailed(t[i], id))
  }

  // ---------- what holds of every entry ever made ----------

  // A route of so many hops at level i has crossed that many different levels up to i.
  ghost predicate GoodRoute(log: Bits, hopNumber: int, networkId: int, i: nat) {
    && TopBit(log, i) && networkId < INFINITO
    && 1 <= hopNumber <= Value(log) - Pow2(i) + 1
  }

  ghost predicate GoodRecord(r: Record, i: nat) {
    r.hopNumber == INFINITO || GoodRoute(r.routeLog, r.hopNumber, r.networkId, i)
  }

  ghost predicate GoodEntry(e: RoutingEntry, i: nat, own: Bits) {
    && GoodRoute(e.routeLog, e.hopNumber, e.networkId, i)
    && 0 <= e.nextHopId < INFINITO
    && 0 <= DiffBit(own, e.nextHopAdd) <= i
    && (DiffBit(own, e.nextHopAdd) == i <==> e.hopNumber == 1)
  }

  ghost predicate GoodLevel(level: seq<RoutingEntry>, i: nat, own: Bits) {
    Sorted(level) && forall e :: e in level ==> GoodEntry(e, i, own)
  }

  ghost predicate GoodTable(t: Table, own: Bits) {
    forall i :: 0 <= i < ADDR_SIZE ==> GoodLevel(t[i], i, own)
  }

  ghost predicate GoodAdvert(a: Advert) {
    forall i :: 0 <= i < ADDR_SIZE ==> GoodRecord(a[i], i)
  }

  ghost predicate GoodNeighbor(n: Neighbor) {
    0 <= n.id < INFINITO && GoodAdvert(n.table)
  }

  lemma {:induction false} Pow2Monotone(i: nat, j: nat)
    requires i <= j
    ensures Pow2(i) <= Pow2(j)
    decreases j
  {
    if i < j { Pow2Monotone(i, j - 1); }
  }

  // No present route counts to infinity.
  lemma GoodRouteIsFinite(log: Bits, hopNumber: int, networkId: int, i: nat)
    requires GoodRoute(log, hopNumber, networkId, i)
    ensures 1 <= hopNumber <= Pow2(i) < INFINITO
    ensures Pow2(i) <= Value(log) < Pow2(i + 1)
  {
    TopBitValue(log, i);
    Pow2Monotone(i, 15);
    assert Pow2(15) == 32768 by { assert Pow2(5) == 32; assert Pow2(10) == 1024; }
  }

  lemma InsertGood(level: seq<RoutingEntry>, e: RoutingEntry, i: nat, own: Bits)
    requires GoodLevel(level, i, own) && GoodEntry(e, i, own)
    ensures GoodLevel(Insert(level, e), i, own)
  {
    InsertKeepsSorted(level, e);
    InsertMembers(level, e);
  }

  lemma SingleIsTop(d: nat)
    requires d < ADDR_SIZE
    ensures TopBit(Single(d), d)
  {
  }

  lemma DirectGood(level: seq<RoutingEntry>, n: Neighbor, d: nat, etx: bool, own: Bits)
    requires GoodLevel(level, d, own) && GoodNeighbor(n) && DiffBit(own, n.address) == d
    ensures GoodLevel(Direct(level, n, d, etx), d, own)
  {
    SingleIsTop(d);
    TopBitValue(Single(d), d);
    InsertGood(level, DirectEntry(n, d), d, own);
  }

  lemma RelayGood(level: seq<RoutingEntry>, n: Neighbor, i: nat, d: nat, etx: bool, own: Bits)
    requires GoodLevel(level, i, own) && GoodNeighbor(n) && DiffBit(own, n.address) == d < i < ADDR_SIZE
    ensures GoodLevel(Relay(level, n, i, d, etx), i, own)
  {
    if !n.RouteLog(i)[d] && n.EntryPresent(i) {
      var r := n.table[i];
      assert GoodRecord(r, i);
      RaisedIsLarger(r.routeLog, i, d);
      assert GoodEntry(RelayedEntry(n, i, d), i, own);
      InsertGood(level, RelayedEntry(n, i, d), i, own);
      InsertGood([], RelayedEntry(n, i, d), i, own);
    }
  }

  // Whatever a neighbor advertises, the table stays good.
  lemma SetUpdateGood(t: Table, own: Bits, n: Neighbor, etx: bool)
    requires GoodTable(t, own) && GoodNeighbor(n)
    ensures GoodTable(SetUpdate(t, own, n, etx), own)
  {
    var d := DiffBit(own, n.address);
    if d != -1 {
      DirectGood(t[d], n, d, etx, own);
      forall i | d < i < ADDR_SIZE
        ensures GoodLevel(Relay(t[i], n, i, d, etx), i, own)
      {
        RelayGood(t[i], n, i, d, etx, own);
      }
    }
  }

  lemma MacFailedGood(t: Table, own: Bits, id: int)
    requires GoodTable(t, own)
    ensures GoodTable(MacFailed(t, id), own)
  {
    forall i | 0 <= i < ADDR_SIZE
      ensures GoodLevel(MarkFailed(t[i], id), i, own)
    {
      MarkFailedGood(t[i], id, i, own);
    }
  }

  lemma MarkFailedGood(level: seq<RoutingEntry>, id: int, i: nat, own: Bits)
    requires GoodLevel(level, i, own)
    ensures GoodLevel(MarkFailed(level, id), i, own)
  {
    var m := MarkFailed(level, id);
    forall e | e in m
      ensures GoodEntry(e, i, own)
    {
      var k :| 0 <= k < |m| && m[k] == e;
      assert level[k] in level;
    }
  }

  lemma SummaryGood(level: seq<RoutingEntry>, i: nat, own: Bits, etx: bool)
    requires GoodLevel(level, i, own)
    ensures GoodRecord(Summary(level, etx), i)
  {
    var r := Summary(level, etx);
    if r != ABSENT {
      var k :| 0 <= k < |level| && r == AsRecord(level[k]);
      assert level[k] in level;
    }
  }

  lemma UpdateGood(t: Table, own: Bits, etx: bool)
    requires GoodTable(t, own)
    ensures GoodAdvert(Update(t, etx))
  {
    forall i | 0 <= i < ADDR_SIZE
      ensures GoodRecord(Update(t, etx)[i], i)
    {
      SummaryGood(t[i], i, own, etx);
    }
  }

  // A level is advertised as present exactly when it has an entry.
  lemma {:induction false} SummaryPresent(level: seq<RoutingEntry>, i: nat, own: Bits, etx: bool)
    requires GoodLevel(level, i, own)
    ensures Summary(level, etx).hopNumber < INFINITO <==> level != []
  {
    if level != [] {
      var last, rest := level[|level| - 1], level[..|level| - 1];
      SummaryPresent(rest, i, own, etx);
      assert last in level;
      GoodRouteIsFinite(last.routeLog, last.hopNumber, last.networkId, i);
      var r := Summary(rest, etx);
      if r != ABSENT {
        var k :| 0 <= k < |rest| && r == AsRecord(rest[k]);
        assert rest[k] in level;
      }
    }
  }

  // ---------- looking up the next hop ----------

  // The best candidate so far.
  datatype Best = Best(level: int, id: int, hopNumber: int, etxMetric: real)

  const NOTHING := Best(16, IP_BROADCAST, INFINITO, RTR_ETX_MAX)

  // Whether e beats the best so far for a packet to dst.
  predicate Beats(e: RoutingEntry, dst: Bits, best: Best, etx: bool) {
    var diff := DiffBit(dst, e.nextHopAdd);
    && !e.macFailed
    && (diff < best.level
        || (diff == best.level
            && if etx then e.etxMetric < best.etxMetric
               else e.interface < MAXINTERF && e.hopNumber < best.hopNumber))
  }

  function AsBest(e: RoutingEntry, dst: Bits): Best {
    Best(DiffBit(dst, e.nextHopAdd), e.nextHopId, e.hopNumber, e.etxMetric)
  }

  // One level, entry by entry.
  function Pick(level: seq<RoutingEntry>, dst: Bits, etx: bool, best: Best): Best {
    if level == [] then best
    else
      var last := level[|level| - 1];
      var b := Pick(level[..|level| - 1], dst, etx, best);
      if Beats(last, dst, b, etx) then AsBest(last, dst) else b
  }

  // Levels i and up, until one yields a next hop.
  function Climb(t: Table, dst: Bits, etx: bool, i: nat, best: Best): int
    requires i <= ADDR_SIZE
    decreases ADDR_SIZE - i
  {
    if i == ADDR_SIZE then best.id
    else
      var b := Pick(t[i], dst, etx, best);
      if b.id != IP_BROADCAST then b.id else Climb(t, dst, etx, i + 1, b)
  }

  function GetEntry(t: Table, own: Bits, dst: Bits, etx: bool): int {
    var d := DiffBit(own, dst);
    if d < 0 then IP_BROADCAST else Climb(t, dst, etx, d, NOTHING)
  }

  // The lookup that stays at the level where dst lies.
  function DAGetEntry(t: Table, own: Bits, dst: Bits, etx: bool): int {
    var d := DiffBit(own, dst);
    if d < 0 then IP_BROADCAST else Pick(t[d], dst, etx, NOTHING).id
  }

  ghost predicate Live(level: seq<RoutingEntry>) {
    exists i :: 0 <= i < |level| && !level[i].macFailed
  }

  // e is a best live entry of a level: closest to dst, and among the closest none has a
  // smaller metric (none on a real interface fewer hops, when hops are counted).
  ghost predicate Choice(e: RoutingEntry, level: seq<RoutingEntry>, dst: Bits, etx: bool) {
    && e in level && !e.macFailed
    && forall x :: x in level && !x.macFailed ==> NotWorse(e, x, dst, etx)
  }

  predicate NotWorse(e: RoutingEntry, x: RoutingEntry, dst: Bits, etx: bool) {
    && DiffBit(dst, e.nextHopAdd) <= DiffBit(dst, x.nextHopAdd)
    && (DiffBit(dst, e.nextHopAdd) == DiffBit(dst, x.nextHopAdd) ==>
          if etx then e.etxMetric <= x.etxMetric
          else x.interface < MAXINTERF ==> e.hopNumber <= x.hopNumber)
  }

  ghost predicate Picked(level: seq<RoutingEntry>, dst: Bits, etx: bool, b: Best) {
    exists i :: 0 <= i < |level| && Choice(level[i], level, dst, etx) && b == AsBest(level[i], dst)
  }

  // One level picks nothing if nothing in it is live, a choice otherwise.
  lemma {:induction false} PickChooses(level: seq<RoutingEntry>, dst: Bits, etx: bool)
    ensures !Live(level) ==> Pick(level, dst, etx, NOTHING) == NOTHING
    ensures Live(level) ==> Picked(level, dst, etx, Pick(level, dst, etx, NOTHING))
  {
    if level != [] {
      var n := |level| - 1;
      var last, rest := level[n], level[..n];
      PickChooses(rest, dst, etx);
      assert level == rest + [last];
      var b := Pick(rest, dst, etx, NOTHING);
      if Live(rest) {
        var i :| 0 <= i < |rest| && Choice(rest[i], rest, dst, etx) && b == AsBest(rest[i], dst);
        if Beats(last, dst, b, etx) {
          Overtakes(rest, last, rest[i], dst, etx);
        } else {
          assert last.macFailed || NotWorse(rest[i], last, dst, etx);
          assert Choice(level[i], level, dst, etx);
        }
      } else if !last.macFailed {
        assert forall x :: x in rest ==> x.macFailed;
        assert Choice(level[n], level, dst, etx);
      }
    }
  }

  lemma Overtakes(rest: seq<RoutingEntry>, last: RoutingEntry, e: RoutingEntry, dst: Bits, etx: bool)
    requires Choice(e, rest, dst, etx) && Beats(last, dst, AsBest(e, dst), etx)
    ensures Choice((rest + [last])[|rest|], rest + [last], dst, etx)
  {
    var level := rest + [last];
    forall x | x in level && !x.macFailed
      ensures NotWorse(last, x, dst, etx)
    {
      if x in rest { assert NotWorse(e, x, dst, etx); }
    }
  }

  // Where the next hop comes from: no live entry from level d up to i, a choice at i.
  ghost predicate Selected(t: Table, dst: Bits, etx: bool, d: nat, id: int, i: nat, k: nat) {
    && d <= i < ADDR_SIZE && (forall j :: d <= j < i ==> !Live(t[j]))
    && k < |t[i]| && Choice(t[i][k], t[i], dst, etx) && id == t[i][k].nextHopId
  }

  ghost predicate Routable(t: Table, d: nat) {
    exists i :: d <= i < ADDR_SIZE && Live(t[i])
  }

  lemma {:induction false} ClimbSelects(t: Table, own: Bits, dst: Bits, etx: bool, d: nat, i: nat)
    returns (l: nat, k: nat)
    requires GoodTable(t, own) && d <= i <= ADDR_SIZE && forall j :: d <= j < i ==> !Live(t[j])
    ensures !Routable(t, d) ==> Climb(t, dst, etx, i, NOTHING) == IP_BROADCAST
    ensures Routable(t, d) ==> Selected(t, dst, etx, d, Climb(t, dst, etx, i, NOTHING), l, k)
    decreases ADDR_SIZE - i
  {
    l, k := 0, 0;
    if i < ADDR_SIZE {
      PickChooses(t[i], dst, etx);
      if Live(t[i]) {
        var b := Pick(t[i], dst, etx, NOTHING);
        k :| 0 <= k < |t[i]| && Choice(t[i][k], t[i], dst, etx) && b == AsBest(t[i][k], dst);
        l := i;
        assert GoodLevel(t[i], i, own) && t[i][k] in t[i];
      } else {
        l, k := ClimbSelects(t, own, dst, etx, d, i + 1);
      }
    }
  }

  // The next hop comes from the lowest level, at or above the one at which dst lies, that
  // has a live entry, and is a best entry of that level; without one there is no next hop.
  lemma GetEntrySelects(t: Table, own: Bits, dst: Bits, etx: bool)
    requires GoodTable(t, own) && own != dst
    ensures var d := DiffBit(own, dst);
            && d >= 0
            && (GetEntry(t, own, dst, etx) == IP_BROADCAST <==> !Routable(t, d))
            && (Routable(t, d) ==> exists i: nat, k: nat :: Selected(t, dst, etx, d, GetEntry(t, own, dst, etx), i, k))
  {
    DiffZero(own, dst);
    var d := DiffBit(own, dst);
    var i, k := ClimbSelects(t, own, dst, etx, d, d);
    if Routable(t, d) {
      assert GoodLevel(t[i], i, own) && t[i][k] in t[i];
    }
  }

  // The lookup at the level of dst alone: a best live entry of that level, if it has one.
  lemma DAGetEntryChooses(t: Table, own: Bits, dst: Bits, etx: bool)
    requires GoodTable(t, own) && own != dst
    ensures var d := DiffBit(own, dst);
            && d >= 0
            && (DAGetEntry(t, own, dst, etx) == IP_BROADCAST <==> !Live(t[d]))
            && (Live(t[d]) ==> exists k :: 0 <= k < |t[d]| && Choice(t[d][k], t[d], dst, etx)
                                           && t[d][k].nextHopId == DAGetEntry(t, own, dst, etx))
  {
    DiffZero(own, dst);
    var d := DiffBit(own, dst);
    PickChooses(t[d], dst, etx);
    if Live(t[d]) {
      var b := Pick(t[d], dst, etx, NOTHING);
      var k :| 0 <= k < |t[d]| && Choice(t[d][k], t[d], dst, etx) && b == AsBest(t[d][k], dst);
      assert GoodLevel(t[d], d, own) && t[d][k] in t[d];
    }
  }

  // An entry at the level of dst leads strictly closer to dst exactly when it is one hop
  // away, that is, a neighbor within the same sibling as dst.
  lemma OneHopIsCloser(e: RoutingEntry, own: Bits, dst: Bits, d: nat)
    requires DiffBit(own, dst) == d && GoodEntry(e, d, own)
    ensures DiffBit(dst, e.nextHopAdd) < d <==> e.hopNumber == 1
    ensures DiffBit(dst, e.nextHopAdd) <= d
  {
    DiffSymmetric(own, dst);
    Ultrametric(dst, own, e.nextHopAdd);
  }

  // So if the level of dst holds a live neighbor, the next hop is strictly closer to dst.
  lemma NextHopIsCloser(t: Table, own: Bits, dst: Bits, etx: bool, d: nat, k: nat)
    requires GoodTable(t, own) && DiffBit(own, dst) == d
    requires k < |t[d]| && !t[d][k].macFailed && t[d][k].hopNumber == 1
    ensures exists j :: 0 <= j < |t[d]| && t[d][j].nextHopId == GetEntry(t, own, dst, etx)
                        && DiffBit(dst, t[d][j].nextHopAdd) < d
  {
    assert Live(t[d]);
    GetEntrySelects(t, own, dst, etx);
    var i: nat, j: nat :| Selected(t, dst, etx, d, GetEntry(t, own, dst, etx), i, j);
    assert i == d;
    assert t[d][k] in t[d] && GoodLevel(t[d], d, own);
    OneHopIsCloser(t[d][k], own, dst, d);
    assert NotWorse(t[d][j], t[d][k], dst, etx);
  }
}
