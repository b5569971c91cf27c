// Where the routes of a run come from: every one is a chain of adverts, each passed on by a
// node that heard the one before.
module Routes {
  import opened Bits
  import opened Routing
  import opened Allocation
  import opened Network

  // A route at level i with this log and so many hops was in some hello.
  ghost predicate Advertised(sent: set<Hello>, i: nat, log: Bits, hops: nat)
    requires i < ADDR_SIZE
  {
    exists h :: h in sent && h.table[i].routeLog == log && h.table[i].hopNumber == hops
  }

  // The logs a route has had, from the node that found the sibling itself: each but the last
  // advertised, and each the one before with one more level crossed.
  ghost predicate History(sent: set<Hello>, i: nat, logs: seq<Bits>) {
    && i < ADDR_SIZE && logs != [] && logs[0] == Single(i) && Chain(logs, i)
    && forall k :: 0 <= k < |logs| - 1 ==> Advertised(sent, i, logs[k], k + 1)
  }

  // The hops of a route are the steps of its history.
  ghost predicate Traced(sent: set<Hello>, i: nat, log: Bits, hops: int) {
    exists logs :: History(sent, i, logs) && |logs| == hops && logs[|logs| - 1] == log
  }

  lemma TracedLater(sent: set<Hello>, more: set<Hello>, i: nat, log: Bits, hops: int)
    requires Traced(sent, i, log, hops) && sent <= more
    ensures Traced(more, i, log, hops)
  {
    var logs :| History(sent, i, logs) && |logs| == hops && logs[|logs| - 1] == log;
    forall k | 0 <= k < |logs| - 1
      ensures Advertised(more, i, logs[k], k + 1)
    {
      assert Advertised(sent, i, logs[k], k + 1);
    }
    assert History(more, i, logs);
  }

  lemma TracedSingle(sent: set<Hello>, d: nat)
    requires d < ADDR_SIZE
    ensures Traced(sent, d, Single(d), 1)
  {
    SingleIsTop(d);
    assert History(sent, d, [Single(d)]);
  }

  // A route heard of and passed on.
  lemma TracedRelay(sent: set<Hello>, i: nat, log: Bits, hops: nat, d: nat)
    requires Traced(sent, i, log, hops) && Advertised(sent, i, log, hops) && d < i < ADDR_SIZE && !log[d]
    ensures Traced(sent, i, Raised(log, d), hops + 1)
  {
    var logs :| History(sent, i, logs) && |logs| == hops && logs[|logs| - 1] == log;
    var next := logs + [Raised(log, d)];
    ChainGrows(logs, i, d);
    forall k | 0 <= k < |next| - 1
      ensures Advertised(sent, i, next[k], k + 1)
    {
      if k < |logs| - 1 { assert Advertised(sent, i, logs[k], k + 1); }
    }
    assert History(sent, i, next);
  }

  // ---------- tables, hellos, neighbors ----------

  ghost predicate TracedLevel(sent: set<Hello>, level: seq<RoutingEntry>, i: nat) {
    forall e :: e in level ==> Traced(sent, i, e.routeLog, e.hopNumber)
  }

  ghost predicate TracedTable(sent: set<Hello>, t: Table) {
    forall i :: 0 <= i < ADDR_SIZE ==> TracedLevel(sent, t[i], i)
  }

  ghost predicate TracedAdvert(sent: set<Hello>, a: Advert) {
    forall i :: 0 <= i < ADDR_SIZE ==> TracedRecord(sent, a[i], i)
  }

  ghost predicate TracedRecord(sent: set<Hello>, r: Record, i: nat) {
    r.hopNumber == INFINITO || Traced(sent, i, r.routeLog, r.hopNumber)
  }

  // What is known of a neighbor is what it said in some hello.
  ghost predicate Heeds(sent: set<Hello>, n: Neighbor) {
    exists h :: h in sent && h.table == n.table
  }

  ghost predicate TracedNode(sent: set<Hello>, n: Node) {
    TracedTable(sent, n.table) && forall m :: m in n.neighbors ==> Heeds(sent, m)
  }

  ghost predicate TracedNet(net: Net) {
    && (forall k :: 0 <= k < |net.nodes| ==> TracedNode(net.sent, net.nodes[k]))
    && (forall h :: h in net.sent ==> TracedAdvert(net.sent, h.table))
  }

  // ---------- every action keeps them so ----------

  lemma InsertTraced(sent: set<Hello>, level: seq<RoutingEntry>, e: RoutingEntry, i: nat)
    requires TracedLevel(sent, level, i) && Traced(sent, i, e.routeLog, e.hopNumber)
    ensures TracedLevel(sent, Insert(level, e), i)
  {
    InsertMembers(level, e);
  }

  lemma RelayTraced(sent: set<Hello>, level: seq<RoutingEntry>, n: Neighbor, i: nat, d: nat, etx: bool)
    requires TracedLevel(sent, level, i) && d < i < ADDR_SIZE && GoodNeighbor(n)
    requires Heeds(sent, n) && forall h :: h in sent ==> TracedAdvert(sent, h.table)
    ensures TracedLevel(sent, Relay(level, n, i, d, etx), i)
  {
    if !n.RouteLog(i)[d] && n.EntryPresent(i) {
      var h :| h in sent && h.table == n.table;
      var r := n.table[i];
      assert TracedRecord(sent, r, i) && GoodRecord(r, i);
      assert Advertised(sent, i, r.routeLog, r.hopNumber);
      TracedRelay(sent, i, r.routeLog, r.hopNumber, d);
      InsertTraced(sent, level, RelayedEntry(n, i, d), i);
      InsertTraced(sent, [], RelayedEntry(n, i, d), i);
    }
  }

  lemma SetUpdateTraced(sent: set<Hello>, t: Table, own: Bits, n: Neighbor, etx: bool)
    requires TracedTable(sent, t) && GoodNeighbor(n)
    requires Heeds(sent, n) && forall h :: h in sent ==> TracedAdvert(sent, h.table)
    ensures TracedTable(sent, SetUpdate(t, own, n, etx))
  {
    var d := DiffBit(own, n.address);
    if d != -1 {
      TracedSingle(sent, d);
      InsertTraced(sent, t[d], DirectEntry(n, d), d);
      forall i | d < i < ADDR_SIZE
        ensures TracedLevel(sent, Relay(t[i], n, i, d, etx), i)
      {
        RelayTraced(sent, t[i], n, i, d, etx);
      }
    }
  }

  lemma {:induction false} LearnedTraced(sent: set<Hello>, t: Table, own: Bits, ns: seq<Neighbor>, etx: bool)
    requires TracedTable(sent, t) && GoodNeighbors(ns) && forall n :: n in ns ==> Heeds(sent, n)
    requires forall h :: h in sent ==> TracedAdvert(sent, h.table)
    ensures TracedTable(sent, Learned(t, own, ns, etx))
  {
    if ns != [] {
      var n := ns[|ns| - 1];
      assert n in ns;
      LearnedTraced(sent, t, own, ns[..|ns| - 1], etx);
      if Heeded(n, etx) { SetUpdateTraced(sent, Learned(t, own, ns[..|ns| - 1], etx), own, n, etx); }
    }
  }

  lemma FailedTraced(sent: set<Hello>, level: seq<RoutingEntry>, id: int, i: nat)
    requires TracedLevel(sent, level, i)
    ensures TracedLevel(sent, MarkFailed(level, id), i)
  {
    var m := MarkFailed(level, id);
    forall e | e in m
      ensures Traced(sent, i, e.routeLog, e.hopNumber)
    {
      var k :| 0 <= k < |m| && m[k] == e;
      assert level[k] in level;
    }
  }

  lemma {:induction false} HeardTraced(sent: set<Hello>, ns: seq<Neighbor>, n: Neighbor)
    requires Heeds(sent, n) && forall m :: m in ns ==> Heeds(sent, m)
    ensures forall m :: m in Heard(ns, n) ==> Heeds(sent, m)
  {
    if ns != [] && ns[0].id != n.id { HeardTraced(sent, ns[1..], n); }
  }

  lemma AfterTraced(sent: set<Hello>, n: Node, a: Action)
    requires TracedNode(sent, n) && GoodNode(n) && forall h :: h in sent ==> TracedAdvert(sent, h.table)
    requires a.Hear? ==> a.h in sent
    requires a.Purge? ==> forall m :: m in a.kept ==> m in n.neighbors
    ensures TracedNode(sent, After(n, a))
  {
    match a
    case Hear(_, h, etx, quality, interface) =>
      HeardTraced(sent, n.neighbors, Neighbor(h.id, h.address, h.table, etx, quality, interface));
    case Revalidate(_) => assert forall i :: 0 <= i < ADDR_SIZE ==> EMPTY[i] == [];
    case Learn(_) => LearnedTraced(sent, n.table, n.address, n.neighbors, n.etx);
    case Fail(_, id) =>
      forall i | 0 <= i < ADDR_SIZE
        ensures TracedLevel(sent, MarkFailed(n.table[i], id), i)
      {
        FailedTraced(sent, n.table[i], id, i);
      }
    case _ =>
  }

  lemma SummaryTraced(sent: set<Hello>, level: seq<RoutingEntry>, i: nat, etx: bool)
    requires TracedLevel(sent, level, i)
    ensures TracedRecord(sent, Summary(level, etx), i)
  {
    var r := Summary(level, etx);
    if r != ABSENT {
      var k :| 0 <= k < |level| && r == AsRecord(level[k]);
      assert level[k] in level;
    }
  }

  // More hellos do not undo a history.
  lemma LevelLater(sent: set<Hello>, more: set<Hello>, level: seq<RoutingEntry>, i: nat)
    requires TracedLevel(sent, level, i) && sent <= more
    ensures TracedLevel(more, level, i)
  {
    forall e | e in level
      ensures Traced(more, i, e.routeLog, e.hopNumber)
    {
      TracedLater(sent, more, i, e.routeLog, e.hopNumber);
    }
  }

  lemma NodeLater(sent: set<Hello>, more: set<Hello>, n: Node)
    requires TracedNode(sent, n) && sent <= more
    ensures TracedNode(more, n)
  {
    forall i | 0 <= i < ADDR_SIZE
      ensures TracedLevel(more, n.table[i], i)
    {
      LevelLater(sent, more, n.table[i], i);
    }
  }

  lemma AdvertLater(sent: set<Hello>, more: set<Hello>, a: Advert)
    requires TracedAdvert(sent, a) && sent <= more
    ensures TracedAdvert(more, a)
  {
    forall i | 0 <= i < ADDR_SIZE
      ensures TracedRecord(more, a[i], i)
    {
      if a[i].hopNumber != INFINITO {
        assert TracedRecord(sent, a[i], i);
        TracedLater(sent, more, i, a[i].routeLog, a[i].hopNumber);
      }
    }
  }

  lemma HelloTraced(sent: set<Hello>, n: Node)
    requires TracedNode(sent, n)
    ensures TracedAdvert(sent, HelloOf(n).table)
  {
    forall i | 0 <= i < ADDR_SIZE
      ensures TracedRecord(sent, Update(n.table, n.etx)[i], i)
    {
      SummaryTraced(sent, n.table[i], i, n.etx);
    }
  }

  lemma DoTraced(net: Net, a: Action)
    requires TracedNet(net) && GoodNet(net) && Enabled(net, a)
    ensures TracedNet(Do(net, a))
  {
    var next := Do(net, a);
    AfterTraced(net.sent, net.nodes[a.k], a);
    HelloTraced(net.sent, net.nodes[a.k]);
    forall k | 0 <= k < |next.nodes|
      ensures TracedNode(next.sent, next.nodes[k])
    {
      NodeLater(net.sent, next.sent, next.nodes[k]);
    }
    forall h | h in next.sent
      ensures TracedAdvert(next.sent, h.table)
    {
      AdvertLater(net.sent, next.sent, h.table);
    }
  }

  lemma {:induction false} RunTraced(run: seq<Net>, actions: seq<Action>, s: nat)
    requires Run(run, actions) && s < |run|
    ensures TracedNet(run[s])
  {
    if s == 0 {
      assert forall i :: 0 <= i < ADDR_SIZE ==> EMPTY[i] == [];
    } else {
      RunTraced(run, actions, s - 1);
      RunGood(run, actions, s - 1);
      DoTraced(run[s - 1], actions[s - 1]);
    }
  }

  // In every run a route of h hops at level i ends a chain of h strictly increasing logs, all
  // but the last advertised before; no such chain is longer than 2^i.
  lemma RouteHistories(run: seq<Net>, actions: seq<Action>, s: nat, k: nat, i: nat, j: nat) returns (logs: seq<Bits>)
    requires Run(run, actions) && s < |run| && k < |run[s].nodes| && i < ADDR_SIZE
    requires j < |run[s].nodes[k].table[i]|
    ensures var e := run[s].nodes[k].table[i][j];
            && History(run[s].sent, i, logs) && |logs| == e.hopNumber && logs[|logs| - 1] == e.routeLog
            && |logs| <= Pow2(i)
  {
    RunTraced(run, actions, s);
    var n := run[s].nodes[k];
    var e := n.table[i][j];
    assert TracedNode(run[s].sent, n) && TracedLevel(run[s].sent, n.table[i], i) && e in n.table[i];
    logs :| History(run[s].sent, i, logs) && |logs| == e.hopNumber && logs[|logs| - 1] == e.routeLog;
    ChainIsShort(logs, i);
  }
}
