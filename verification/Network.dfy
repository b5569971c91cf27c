// Any number of nodes exchanging hello messages that may be lost, repeated, reordered and
// arbitrarily stale, while addresses come and go: what holds in every run.
module Network {
  import opened Bits
  import opened Routing
  import opened Allocation

  datatype Node = Node(id: int, etx: bool, address: Bits, table: Table, neighbors: seq<Neighbor>)

  // What a hello says: who sends it, from what address, and a summary of its table.
  datatype Hello = Hello(id: int, address: Bits, table: Advert)

  // The nodes, and every hello ever sent.
  datatype Net = Net(nodes: seq<Node>, sent: set<Hello>)

  datatype Action =
    | Send(k: nat)                                                        // NDP::sendHello
    | Hear(k: nat, h: Hello, etx: real, quality: real, interface: nat)    // NDP::recvHello
    | Purge(k: nat, kept: seq<Neighbor>)                                  // NDP::neighborPurge
    | Revalidate(k: nat)                                                  // ASPU::validateAddress
    | Learn(k: nat)                                                       // NDP::updateRoutingTable
    | Fail(k: nat, id: int)                                               // RoutingTable::macFailed

  function HelloOf(n: Node): Hello { Hello(n.id, n.address, Update(n.table, n.etx)) }

  ghost predicate Enabled(net: Net, a: Action) {
    && a.k < |net.nodes|
    && match a
       case Hear(_, h, _, _, _) => h in net.sent
       case Purge(k, kept) => OnePerId(kept) && forall n :: n in kept ==> n in net.nodes[k].neighbors
       case _ => true
  }

  // What an action does to the node that takes it.
  function After(n: Node, a: Action): Node {
    match a
    case Send(_) => n
    case Hear(_, h, etx, quality, interface) =>
      n.(neighbors := Heard(n.neighbors, Neighbor(h.id, h.address, h.table, etx, quality, interface)))
    case Purge(_, kept) => n.(neighbors := kept)
    case Revalidate(_) =>
      n.(address := Reallocated(n.address, n.table, n.neighbors, n.id, n.etx), table := EMPTY)
    case Learn(_) => n.(table := Learned(n.table, n.address, n.neighbors, n.etx))
    case Fail(_, id) => n.(table := MacFailed(n.table, id))
  }

  function Do(net: Net, a: Action): Net
    requires a.k < |net.nodes|
  {
    Net(net.nodes[a.k := After(net.nodes[a.k], a)],
        if a.Send? then net.sent + {HelloOf(net.nodes[a.k])} else net.sent)
  }

  // Freshly started nodes, nothing sent yet.
  ghost predicate Initial(net: Net) {
    && net.sent == {}
    && forall k :: 0 <= k < |net.nodes| ==>
         net.nodes[k].table == EMPTY && net.nodes[k].neighbors == [] && 0 <= net.nodes[k].id < INFINITO
  }

  // A run: states linked by enabled actions.
  ghost predicate Run(run: seq<Net>, actions: seq<Action>) {
    && |run| == |actions| + 1 && Initial(run[0])
    && forall i :: 0 <= i < |actions| ==> Enabled(run[i], actions[i]) && run[i + 1] == Do(run[i], actions[i])
  }

  // ---------- the invariant ----------

  ghost predicate GoodNode(n: Node) {
    && 0 <= n.id < INFINITO && GoodTable(n.table, n.address)
    && GoodNeighbors(n.neighbors) && OnePerId(n.neighbors)
  }

  ghost predicate GoodHello(h: Hello) { 0 <= h.id < INFINITO && GoodAdvert(h.table) }

  ghost predicate GoodNet(net: Net) {
    (forall k :: 0 <= k < |net.nodes| ==> GoodNode(net.nodes[k])) && (forall h :: h in net.sent ==> GoodHello(h))
  }

  lemma EmptyGood(own: Bits)
    ensures GoodTable(EMPTY, own)
  {
    assert forall i :: 0 <= i < ADDR_SIZE ==> EMPTY[i] == [];
  }

  lemma AfterGood(n: Node, a: Action)
    requires GoodNode(n)
    requires a.Hear? ==> GoodHello(a.h)
    requires a.Purge? ==> OnePerId(a.kept) && forall m :: m in a.kept ==> m in n.neighbors
    ensures GoodNode(After(n, a))
  {
    match a
    case Send(_) =>
    case Hear(_, h, etx, quality, interface) =>
      HeardGood(n.neighbors, Neighbor(h.id, h.address, h.table, etx, quality, interface));
      HeardOnce(n.neighbors, Neighbor(h.id, h.address, h.table, etx, quality, interface));
    case Purge(_, kept) => assert forall i :: 0 <= i < |kept| ==> kept[i] in kept;
    case Revalidate(_) => EmptyGood(After(n, a).address);
    case Learn(_) => LearnedGood(n.table, n.address, n.neighbors, n.etx);
    case Fail(_, id) => MacFailedGood(n.table, n.address, id);
  }

  // Every action keeps the invariant.
  lemma DoGood(net: Net, a: Action)
    requires GoodNet(net) && Enabled(net, a)
    ensures GoodNet(Do(net, a))
  {
    AfterGood(net.nodes[a.k], a);
    UpdateGood(net.nodes[a.k].table, net.nodes[a.k].address, net.nodes[a.k].etx);
  }

  lemma {:induction false} RunGood(run: seq<Net>, actions: seq<Action>, i: nat)
    requires Run(run, actions) && i < |run|
    ensures GoodNet(run[i])
  {
    if i == 0 {
      forall k | 0 <= k < |run[0].nodes|
        ensures GoodNode(run[0].nodes[k])
      {
        EmptyGood(run[0].nodes[k].address);
      }
    } else {
      RunGood(run, actions, i - 1);
      DoGood(run[i - 1], actions[i - 1]);
    }
  }

  // ---------- what it means ----------

  // In every run, whatever is lost, repeated, delayed or reordered: a route at level i has
  // its log between 2^i and 2^(i+1), has made fewer hops than the log has room for, and so
  // never counts up to INFINITO; and its next hop differs from the node in bit i exactly if
  // it is a neighbor, in a lower bit otherwise.
  lemma RoutesInEveryRun(run: seq<Net>, actions: seq<Action>, s: nat, k: nat, i: nat, j: nat)
    requires Run(run, actions) && s < |run| && k < |run[s].nodes| && i < ADDR_SIZE
    requires j < |run[s].nodes[k].table[i]|
    ensures var n := run[s].nodes[k];
            var e := n.table[i][j];
            && Pow2(i) <= Value(e.routeLog) < Pow2(i + 1)
            && 1 <= e.hopNumber <= Value(e.routeLog) - Pow2(i) + 1 && e.hopNumber < INFINITO
            && 0 <= DiffBit(n.address, e.nextHopAdd) <= i
            && (DiffBit(n.address, e.nextHopAdd) == i <==> e.hopNumber == 1)
  {
    RunGood(run, actions, s);
    var n := run[s].nodes[k];
    var e := n.table[i][j];
    assert GoodNode(n) && GoodLevel(n.table[i], i, n.address) && e in n.table[i];
    GoodRouteIsFinite(e.routeLog, e.hopNumber, e.networkId, i);
  }

  // Adverts are never mistaken: a level of a table sent in any run is taken for present by
  // whoever hears of it exactly if the sender had an entry there.
  lemma AdvertsInEveryRun(run: seq<Net>, actions: seq<Action>, s: nat, k: nat, i: nat, etx: real,
                         quality: real, interface: nat)
    requires Run(run, actions) && s < |run| && k < |run[s].nodes| && i < ADDR_SIZE
    ensures var n := run[s].nodes[k];
            var h := HelloOf(n);
            Neighbor(h.id, h.address, h.table, etx, quality, interface).EntryPresent(i) <==> n.table[i] != []
  {
    RunGood(run, actions, s);
    var n := run[s].nodes[k];
    assert GoodNode(n) && GoodLevel(n.table[i], i, n.address);
    SummaryPresent(n.table[i], i, n.address, n.etx);
  }

  // Passing a route on raises its log, as a number: what a node relays at level i from what
  // it heard has one hop more, and a strictly larger log.
  lemma RelayingRaisesLog(n: Neighbor, i: nat, d: nat)
    requires GoodNeighbor(n) && d < i < ADDR_SIZE && n.EntryPresent(i) && !n.RouteLog(i)[d]
    ensures var e := RelayedEntry(n, i, d);
            && e.hopNumber == n.table[i].hopNumber + 1
            && Value(e.routeLog) > Value(n.table[i].routeLog)
            && Crosses(n.table[i].routeLog, e.routeLog, d)
  {
    assert GoodRecord(n.table[i], i);
    RaisedIsLarger(n.table[i].routeLog, i, d);
  }

  // In every run: next hops, where one is found, are at or below the level of the destination
  // and strictly closer to it if its own level holds a live neighbor.
  lemma NextHopsInEveryRun(run: seq<Net>, actions: seq<Action>, s: nat, k: nat, dst: Bits)
    requires Run(run, actions) && s < |run| && k < |run[s].nodes| && dst != run[s].nodes[k].address
    ensures var n := run[s].nodes[k];
            var d := DiffBit(n.address, dst);
            && d >= 0
            && (GetEntry(n.table, n.address, dst, n.etx) == IP_BROADCAST <==> !Routable(n.table, d))
            && ((exists j :: 0 <= j < |n.table[d]| && !n.table[d][j].macFailed && n.table[d][j].hopNumber == 1) ==>
                  exists j :: 0 <= j < |n.table[d]|
                              && n.table[d][j].nextHopId == GetEntry(n.table, n.address, dst, n.etx)
                              && DiffBit(dst, n.table[d][j].nextHopAdd) < d)
  {
    RunGood(run, actions, s);
    var n := run[s].nodes[k];
    var d := DiffBit(n.address, dst);
    assert GoodNode(n);
    GetEntrySelects(n.table, n.address, dst, n.etx);
    if j :| 0 <= j < |n.table[d]| && !n.table[d][j].macFailed && n.table[d][j].hopNumber == 1 {
      NextHopIsCloser(n.table, n.address, dst, n.etx, d, j);
    }
  }
}
