// The routing table of a node, searched and updated in place.
module RoutingTables {
  import opened Bits
  import opened Routing

  // What the table reads of its node: its address and id, and whether links are rated by
  // transmission count (etx) or hops are counted.
  class Aspu {
    var address: Bits
    var oldAddress: Bits
    const id: int
    const etxMetric: bool

    constructor (id: int, etxMetric: bool)
      ensures this.id == id && this.etxMetric == etxMetric
      ensures address == ZEROS && oldAddress == ZEROS
    {
      this.id, this.etxMetric := id, etxMetric;
      address, oldAddress := ZEROS, ZEROS;
    }
  }

  class RoutingTable {
    const aspu: Aspu
    var table: Table

    // Every entry at level i is for a next hop that differs from the node in bit i or
    // below, in bit i exactly when it is one hop away.
    ghost predicate Valid()
      reads this, aspu
    {
      GoodTable(table, aspu.address)
    }

    constructor (aspu: Aspu)
      ensures this.aspu == aspu && table == EMPTY && Valid()
    {
      this.aspu := aspu;
      table := EMPTY;
    }

    method Clear()
      modifies this`table
      ensures table == EMPTY && Valid()
    {
      var i := 0;
      while i < ADDR_SIZE
        invariant i <= ADDR_SIZE && forall j :: 0 <= j < i ==> table[j] == []
      {
        ClearLevel(i);
        i := i + 1;
      }
    }

    method ClearLevel(level: nat)
      requires level < ADDR_SIZE
      modifies this`table
      ensures table == old(table)[level := []]
    {
      table := table[level := []];
    }

    method AddEntry(level: nat, e: RoutingEntry)
      requires level < ADDR_SIZE
      modifies this`table
      ensures table == old(table)[level := Insert(old(table)[level], e)]
    {
      table := table[level := Insert(table[level], e)];
    }

    // networkId and id
    method NetworkId(level: nat) returns (r: int)
      requires level < ADDR_SIZE
      ensures r == LeastNetwork(table[level])
    {
      r := LeastOf(table[level], INFINITO);
    }

    static method LeastOf(level: seq<RoutingEntry>, id: int) returns (r: int)
      ensures r == LeastFrom(level, id)
    {
      r := id;
      var k := 0;
      while k < |level|
        invariant k <= |level| && r == LeastFrom(level[..k], id)
      {
        assert level[..k + 1][..k] == level[..k];
        if level[k].networkId < r { r := level[k].networkId; }
        k := k + 1;
      }
      assert level[..k] == level;
    }

    // levelId, from the highest of the n levels down.
    method LevelId(n: nat) returns (r: int)
      requires n <= ADDR_SIZE
      ensures r == Routing.LevelId(table, n, aspu.id)
    {
      r := aspu.id;
      var i := n;
      while i > 0
        invariant 0 <= i <= n && Routing.LevelId(table, i, r) == Routing.LevelId(table, n, aspu.id)
      {
        r := LeastOf(table[i - 1], r);
        i := i - 1;
      }
    }

    method GetUpdate() returns (a: Advert)
      ensures a == Update(table, aspu.etxMetric)
    {
      a := seq(ADDR_SIZE, _ => ABSENT);
      var i := ADDR_SIZE;
      while i > 0
        invariant 0 <= i <= ADDR_SIZE
        invariant forall j :: i <= j < ADDR_SIZE ==> a[j] == Summary(table[j], aspu.etxMetric)
      {
        i := i - 1;
        var r := Summarise(table[i], aspu.etxMetric);
        a := a[i := r];
      }
    }

    static method Summarise(level: seq<RoutingEntry>, etx: bool) returns (r: Record)
      ensures r == Summary(level, etx)
    {
      r := ABSENT;
      var k := 0;
      while k < |level|
        invariant k <= |level| && r == Summary(level[..k], etx)
      {
        assert level[..k + 1][..k] == level[..k];
        if Supersedes(level[k], r, etx) { r := AsRecord(level[k]); }
        k := k + 1;
      }
      assert level[..k] == level;
    }

    method SetUpdate(n: Neighbor)
      modifies this`table
      ensures table == Routing.SetUpdate(old(table), aspu.address, n, aspu.etxMetric)
    {
      ghost var t := table;
      var d := FindDiffBit(aspu.address, n.address);
      if d == -1 { return; }
      TakeDirect(n, d);
      ghost var t1 := table;
      var i := ADDR_SIZE - 1;
      while i > d
        invariant d <= i < ADDR_SIZE
        invariant forall j :: 0 <= j <= i ==> table[j] == t1[j]
        invariant forall j :: i < j < ADDR_SIZE ==> table[j] == Relay(t[j], n, j, d, aspu.etxMetric)
      {
        TakeRelayed(n, i, d);
        i := i - 1;
      }
      assert table == Routing.SetUpdate(t, aspu.address, n, aspu.etxMetric);
    }

    // The neighbor itself, unless a smaller id is known at its level.
    method TakeDirect(n: Neighbor, d: nat)
      requires d < ADDR_SIZE
      modifies this`table
      ensures table == old(table)[d := Direct(old(table)[d], n, d, aspu.etxMetric)]
    {
      ghost var t := table;
      assert t[d := t[d]] == t;
      var id := NetworkId(d);
      if n.LevelId(d) <= id {
        var present := false;
        var k := 0;
        while k < |table[d]|
          invariant table == t && k <= |table[d]|
          invariant present <==> n.LevelId(d) >= id && Holds(table[d][..k], n.address)
        {
          HoldsNext(table[d], n.address, k);
          if table[d][k].nextHopAdd == n.address && n.LevelId(d) >= id { present := true; }
          k := k + 1;
        }
        assert t[d][..k] == t[d];
        if !present && ((aspu.etxMetric && n.etx + 1.0 < RTR_ETX_MAX) || !aspu.etxMetric) {
          AddEntry(d, DirectEntry(n, d));
        }
      }
    }

    // One level of what the neighbor advertises.
    method TakeRelayed(n: Neighbor, i: nat, d: nat)
      requires d < i < ADDR_SIZE
      modifies this`table
      ensures table == old(table)[i := Relay(old(table)[i], n, i, d, aspu.etxMetric)]
    {
      if !n.RouteLog(i)[d] && n.EntryPresent(i) {
        var least := NetworkId(i);
        if n.NetworkId(i) < least { ClearLevel(i); }
        least := NetworkId(i);
        if n.NetworkId(i) <= least {
          if (aspu.etxMetric && n.etx + n.Etx(i) < RTR_ETX_MAX) || !aspu.etxMetric {
            var log := Raise(n.RouteLog(i), d);
            AddEntry(i, RoutingEntry(n.address, n.id, n.NetworkId(i), n.Hop(i) + 1, n.Etx(i) + n.etx, log,
                                     n.Interface(i), false));
          }
        }
      }
    }

    method MacFailed(id: int)
      modifies this`table
      ensures table == Routing.MacFailed(old(table), id)
    {
      ghost var t := table;
      var i := 0;
      while i < ADDR_SIZE
        invariant i <= ADDR_SIZE
        invariant forall j :: 0 <= j < ADDR_SIZE ==> table[j] == if j < i then MarkFailed(t[j], id) else t[j]
      {
        var level := Mark(table[i], id);
        table := table[i := level];
        i := i + 1;
      }
    }

    static method Mark(level: seq<RoutingEntry>, id: int) returns (r: seq<RoutingEntry>)
      ensures r == MarkFailed(level, id)
    {
      r := level;
      var k := 0;
      while k < |r|
        invariant k <= |r| == |level|
        invariant forall j :: 0 <= j < |r| ==> r[j] == if j < k then MarkFailed(level, id)[j] else level[j]
      {
        if r[k].nextHopId == id {
          r := r[k := r[k].(macFailed := true, etxMetric := r[k].etxMetric + 1.0)];
        }
        k := k + 1;
      }
    }

    method GetEntry(dst: Bits) returns (id: int)
      ensures id == Routing.GetEntry(table, aspu.address, dst, aspu.etxMetric)
    {
      var best := NOTHING;
      var d := FindDiffBit(aspu.address, dst);
      if d < 0 { return best.id; }
      var i := d;
      while i < ADDR_SIZE
        invariant d <= i <= ADDR_SIZE
        invariant Climb(table, dst, aspu.etxMetric, i, best) == Climb(table, dst, aspu.etxMetric, d, NOTHING)
      {
        best := BestOf(table[i], dst, aspu.etxMetric, best);
        if best.id != IP_BROADCAST { return best.id; }
        i := i + 1;
      }
      return best.id;
    }

    method DAGetEntry(dst: Bits) returns (id: int)
      ensures id == Routing.DAGetEntry(table, aspu.address, dst, aspu.etxMetric)
    {
      var d := FindDiffBit(aspu.address, dst);
      if d < 0 { return IP_BROADCAST; }
      var best := BestOf(table[d], dst, aspu.etxMetric, NOTHING);
      return best.id;
    }

    static method BestOf(level: seq<RoutingEntry>, dst: Bits, etx: bool, first: Best) returns (best: Best)
      ensures best == Pick(level, dst, etx, first)
    {
      best := first;
      var k := 0;
      while k < |level|
        invariant k <= |level| && best == Pick(level[..k], dst, etx, first)
      {
        assert level[..k + 1][..k] == level[..k];
        if Beats(level[k], dst, best, etx) { best := AsBest(level[k], dst); }
        k := k + 1;
      }
      assert level[..k] == level;
    }
  }

  lemma HoldsNext(level: seq<RoutingEntry>, add: Bits, k: nat)
    requires k < |level|
    ensures Holds(level[..k + 1], add) <==> Holds(level[..k], add) || level[k].nextHopAdd == add
  {
    var x, y := level[..k], level[..k + 1];
    assert y == x + [level[k]] && y[k] == level[k];
    if Holds(x, add) {
      var i :| 0 <= i < |x| && x[i].nextHopAdd == add;
      assert y[i].nextHopAdd == add;
    }
  }
}
