// Looking up a section name by an abbreviation: it is found, entered, extended or refused.
module NameLookup {
  import opened Wrappers
  import opened Strings
  import opened SectionNames
  import opened NameTree

  // The part of the tree at p is a stretch of all.
  ghost predicate Spans(dir: seq<Name>, all: seq<nat>, p: Option<nat>, a: nat, b: nat) {
    Linked(dir) && At(dir, p) && a <= b <= |all| && Inorder(dir, p) == all[a..b]
  }

  // So are the parts on either side of it.
  lemma Node(dir: seq<Name>, all: seq<nat>, p: Option<nat>, a: nat, b: nat) returns (m: nat)
    requires Spans(dir, all, p, a, b) && p.Some?
    ensures a <= m < b && all[m] == p.value
    ensures Spans(dir, all, dir[p.value].llink, a, m) && Spans(dir, all, dir[p.value].rlink, m + 1, b)
  {
    var l, r := Inorder(dir, dir[p.value].llink), Inorder(dir, dir[p.value].rlink);
    m := a + |l|;
    var s := all[a..b];
    assert s == l + [p.value] + r;
    assert all[m] == s[|l|];
    assert all[a..m] == s[..|l|] == l;
    assert all[m + 1..b] == s[|l| + 1..] == r;
  }

  ghost predicate AllBefore(dir: seq<Name>, all: seq<nat>, m: nat, x: string) {
    forall i :: 0 <= i < m && i < |all| ==> Before(KeyAt(dir, all[i]), x)
  }

  ghost predicate AllAfter(dir: seq<Name>, all: seq<nat>, m: nat, x: string) {
    forall i :: m <= i < |all| ==> Before(x, KeyAt(dir, all[i]))
  }

  // What is left of a name before x is before x, what is right of one after x after it.
  lemma Pruned(dir: seq<Name>, all: seq<nat>, m: nat, x: string)
    requires Ordered(dir, all) && m < |all|
    ensures Before(KeyAt(dir, all[m]), x) ==> AllBefore(dir, all, m + 1, x)
    ensures Before(x, KeyAt(dir, all[m])) ==> AllAfter(dir, all, m, x)
  {
    if Before(KeyAt(dir, all[m]), x) {
      forall i | 0 <= i < m
        ensures Before(KeyAt(dir, all[i]), x)
      {
        BeforeTrans(KeyAt(dir, all[i]), KeyAt(dir, all[m]), x);
      }
    }
    if Before(x, KeyAt(dir, all[m])) {
      forall i | m < i < |all|
        ensures Before(x, KeyAt(dir, all[i]))
      {
        BeforeTrans(x, KeyAt(dir, all[m]), KeyAt(dir, all[i]));
      }
    }
  }

  predicate Fits(x: string, dir: seq<Name>, i: nat) { Compatible(x, KeyAt(dir, i)) }

  lemma OneSided(dir: seq<Name>, all: seq<nat>, m: nat, x: string)
    ensures AllBefore(dir, all, m, x) ==> forall i :: 0 <= i < m && i < |all| ==> !Fits(x, dir, all[i])
    ensures AllAfter(dir, all, m, x) ==> forall i :: m <= i < |all| ==> !Fits(x, dir, all[i])
  {
    forall i | 0 <= i < |all|
      ensures Before(x, KeyAt(dir, all[i])) || Before(KeyAt(dir, all[i]), x) ==> !Fits(x, dir, all[i])
    {
      CompareCases(x, KeyAt(dir, all[i]));
    }
  }

  // Outside a..b and c..d nothing but r is compatible with x.
  ghost predicate RuledOut(dir: seq<Name>, all: seq<nat>, x: string, a: nat, b: nat, c: nat, d: nat, r: Option<nat>) {
    forall i :: 0 <= i < |all| && !(a <= i < b) && !(c <= i < d) && Some(all[i]) != r ==> !Fits(x, dir, all[i])
  }

  // The search has come to p, with q still to be searched and r found.
  ghost predicate Searching(dir: seq<Name>, all: seq<nat>, x: string, p: Option<nat>, q: Option<nat>, r: Option<nat>,
                            a: nat, b: nat, c: nat, d: nat)
  {
    && Spans(dir, all, p, a, b) && Spans(dir, all, q, c, d) && b <= c
    && RuledOut(dir, all, x, a, b, c, d, r)
    && if r.Some? then Found(dir, all, x, r.value, a, b, c, d)
       else q.None? && c == d && AllBefore(dir, all, a, x) && AllAfter(dir, all, b, x)
  }

  ghost predicate Found(dir: seq<Name>, all: seq<nat>, x: string, r: nat, a: nat, b: nat, c: nat, d: nat) {
    Fits(x, dir, r) && exists i :: 0 <= i < |all| && !(a <= i < b) && !(c <= i < d) && all[i] == r
  }

  // Going left past p, which comes after x.
  lemma GoneLeft(dir: seq<Name>, all: seq<nat>, x: string, p: Option<nat>, q: Option<nat>, r: Option<nat>,
                 a: nat, b: nat, c: nat, d: nat) returns (m: nat)
    requires Searching(dir, all, x, p, q, r, a, b, c, d) && p.Some? && Ordered(dir, all)
    requires Before(x, KeyAt(dir, p.value))
    ensures m < |all| && all[m] == p.value && Searching(dir, all, x, dir[p.value].llink, q, r, a, m, c, d)
  {
    m := Node(dir, all, p, a, b);
    Pruned(dir, all, m, x);
    OneSided(dir, all, m, x);
    if r.Some? { FoundStays(dir, all, x, r.value, a, b, c, d, a, m, c, d); }
  }

  // Going right past p, which comes before x.
  lemma GoneRight(dir: seq<Name>, all: seq<nat>, x: string, p: Option<nat>, q: Option<nat>, r: Option<nat>,
                  a: nat, b: nat, c: nat, d: nat) returns (m: nat)
    requires Searching(dir, all, x, p, q, r, a, b, c, d) && p.Some? && Ordered(dir, all)
    requires Before(KeyAt(dir, p.value), x)
    ensures m < |all| && all[m] == p.value && Searching(dir, all, x, dir[p.value].rlink, q, r, m + 1, b, c, d)
  {
    m := Node(dir, all, p, a, b);
    Pruned(dir, all, m, x);
    OneSided(dir, all, m + 1, x);
    if r.Some? { FoundStays(dir, all, x, r.value, a, b, c, d, m + 1, b, c, d); }
  }

  lemma FoundStays(dir: seq<Name>, all: seq<nat>, x: string, r: nat,
                   a: nat, b: nat, c: nat, d: nat, a': nat, b': nat, c': nat, d': nat)
    requires Found(dir, all, x, r, a, b, c, d)
    requires b' <= a' || (a <= a' && b' <= b) || (c <= a' && b' <= d)
    requires d' <= c' || (a <= c' && d' <= b) || (c <= c' && d' <= d)
    ensures Found(dir, all, x, r, a', b', c', d')
  {
    var i :| 0 <= i < |all| && !(a <= i < b) && !(c <= i < d) && all[i] == r;
    assert !(a' <= i < b') && !(c' <= i < d');
  }

  // The first name compatible with x: any other is below it.
  lemma Met(dir: seq<Name>, all: seq<nat>, x: string, p: Option<nat>, a: nat, b: nat, c: nat) returns (m: nat)
    requires Searching(dir, all, x, p, None, None, a, b, c, c) && p.Some? && Fits(x, dir, p.value)
    ensures Searching(dir, all, x, dir[p.value].llink, dir[p.value].rlink, p, a, m, m + 1, b)
  {
    m := Node(dir, all, p, a, b);
    OneSided(dir, all, a, x);
    OneSided(dir, all, b, x);
    assert all[m] == p.value;
  }

  // The left is done, on to the right.
  lemma Turned(dir: seq<Name>, all: seq<nat>, x: string, q: Option<nat>, r: Option<nat>, a: nat, b: nat, c: nat, d: nat)
    requires Searching(dir, all, x, None, q, r, a, b, c, d) && r.Some?
    ensures Searching(dir, all, x, q, None, r, c, d, d, d)
  {
    assert a == b;
    FoundStays(dir, all, x, r.value, a, b, c, d, c, d, d, d);
  }

  // r was found elsewhere.
  lemma NotTheSame(dir: seq<Name>, all: seq<nat>, x: string, p: Option<nat>, q: Option<nat>, r: Option<nat>,
                   a: nat, b: nat, c: nat, d: nat)
    requires Searching(dir, all, x, p, q, r, a, b, c, d) && p.Some? && r.Some? && Ordered(dir, all)
    ensures p != r
  {
    var m := Node(dir, all, p, a, b);
    var i :| 0 <= i < |all| && !(a <= i < b) && !(c <= i < d) && all[i] == r.value;
    OrderedDistinct(dir, all);
    if i < m { Apart(all, i, m); } else { Apart(all, m, i); }
  }

  lemma FoundInDir(dir: seq<Name>, root: Option<nat>, x: string, r: nat, a: nat, b: nat, c: nat, d: nat)
    requires ValidTree(dir, root) && Found(dir, Inorder(dir, root), x, r, a, b, c, d)
    ensures r < |dir|
  {
    var all := Inorder(dir, root);
    var i :| 0 <= i < |all| && !(a <= i < b) && !(c <= i < d) && all[i] == r;
    assert all[i] in all;
  }

  // The search is over: r is all there is.
  lemma Concluded(dir: seq<Name>, root: Option<nat>, x: string, r: Option<nat>, a: nat, b: nat, c: nat, d: nat)
    requires ValidTree(dir, root) && Searching(dir, Inorder(dir, root), x, None, None, r, a, b, c, d)
    ensures OnlyFits(dir, x, r)
  {
    var all := Inorder(dir, root);
    if r.Some? { FoundInDir(dir, root, x, r.value, a, b, c, d); }
    forall i: nat | i < |dir| && Some(i) != r
      ensures !Fits(x, dir, i)
    {
      assert i in all;
      var k :| 0 <= k < |all| && all[k] == i;
    }
  }

  datatype Search = Missing(par: Option<nat>, left: bool) | Unique(r: nat) | Ambiguous

  // x belongs next to par, on that side, where there is nothing yet.
  ghost predicate Slot(dir: seq<Name>, all: seq<nat>, x: string, par: Option<nat>, left: bool, k: nat) {
    if par.None? then all == []
    else
      && par.value < |dir| && Free(dir, par.value, left)
      && k < |all| && all[k] == par.value
      && AllBefore(dir, all, if left then k else k + 1, x) && AllAfter(dir, all, if left then k else k + 1, x)
  }

  // p is where the search has gone from par, at a..b of all.
  ghost predicate Came(dir: seq<Name>, all: seq<nat>, p: Option<nat>, par: Option<nat>, left: bool, a: nat, b: nat) {
    if par.None? then a == 0 && b == |all|
    else
      && par.value < |dir|
      && if left then b < |all| && all[b] == par.value && p == dir[par.value].llink
         else 0 < a <= |all| && all[a - 1] == par.value && p == dir[par.value].rlink
  }

  lemma SecondMet(dir: seq<Name>, root: Option<nat>, x: string, p: Option<nat>, q: Option<nat>, r: Option<nat>,
                  a: nat, b: nat, c: nat, d: nat)
    requires ValidTree(dir, root) && Searching(dir, Inorder(dir, root), x, p, q, r, a, b, c, d)
    requires p.Some? && r.Some? && Fits(x, dir, p.value)
    ensures TwoFit(dir, x)
  {
    NotTheSame(dir, Inorder(dir, root), x, p, q, r, a, b, c, d);
    FoundInDir(dir, root, x, r.value, a, b, c, d);
    var m, n := p.value, r.value;
    assert Fits(x, dir, m) && Fits(x, dir, n) && (m < n || n < m);
  }

  // x abbreviates, or is abbreviated by, at least two names; only r.
  ghost predicate TwoFit(dir: seq<Name>, x: string) {
    exists i, j :: 0 <= i < j < |dir| && Fits(x, dir, i) && Fits(x, dir, j)
  }

  ghost predicate OnlyFits(dir: seq<Name>, x: string, r: Option<nat>) {
    && (r.Some? ==> r.value < |dir| && Fits(x, dir, r.value))
    && (forall i: nat :: i < |dir| && Some(i) != r ==> !Fits(x, dir, i))
  }

  lemma SlotHere(dir: seq<Name>, all: seq<nat>, x: string, par: Option<nat>, left: bool, a: nat, b: nat, c: nat, d: nat)
    requires Searching(dir, all, x, None, None, None, a, b, c, d) && Came(dir, all, None, par, left, a, b)
    ensures par.Some? && !left ==> a > 0
    ensures Slot(dir, all, x, par, left, if left then b else if a > 0 then a - 1 else 0)
  {
  }

  // ---------- what becomes of the name found ----------

  // Its key shrinks to a shorter abbreviation, its text grows by what x adds.
  function Updated(n: Name, x: string, ispref: bool): Name
    requires WellNamed(n)
  {
    var text := Text(n.chunks);
    match Against(x, text, Complete(n.chunks))
    case Prefix => if ispref && |x| < n.prefixLength then n.(prefixLength := |x|) else n
    case Extension =>
      if (!ispref || |x| > |text|) && |text| <= |x| then n.(chunks := n.chunks + [Chunk(x[|text|..], ispref)]) else n
    case _ => n
  }

  lemma TextBegins(chunks: seq<string>)
    requires chunks != []
    ensures Body(chunks[0]) <= Text(chunks)
  {
    assert Text(chunks) == Body(chunks[0]) + TextFrom(chunks, 1);
  }

  lemma UpdatedWell(n: Name, x: string, ispref: bool)
    requires WellNamed(n) && (ispref || EndsWell(x))
    ensures var m := Updated(n, x, ispref);
            && WellNamed(m) && m.llink == n.llink && m.rlink == n.rlink
            && KeyAt([m], 0)
               == if Against(x, Text(n.chunks), Complete(n.chunks)) == Prefix && ispref && |x| < n.prefixLength
                                then x else KeyAt([n], 0)
    ensures Against(x, Text(n.chunks), Complete(n.chunks)) == Prefix && |x| < n.prefixLength ==> x <= KeyAt([n], 0)
  {
    CompareCases(x, Text(n.chunks));
    TextBegins(n.chunks);
    if Against(x, Text(n.chunks), Complete(n.chunks)) == Extension && (!ispref || |x| > |Text(n.chunks)|) {
      ExtendedWell(n, x, ispref);
    }
  }

  lemma ExtendedWell(n: Name, x: string, ispref: bool)
    requires WellNamed(n) && (ispref || EndsWell(x)) && Against(x, Text(n.chunks), Complete(n.chunks)) == Extension
    requires !ispref || |x| > |Text(n.chunks)|
    ensures Text(n.chunks) <= x && Updated(n, x, ispref)
            == n.(chunks := n.chunks + [Chunk(x[|Text(n.chunks)|..], ispref)])
    ensures var m := Updated(n, x, ispref);
            WellNamed(m) && Text(m.chunks) == x && Complete(m.chunks) == !ispref && m.chunks[0] == n.chunks[0]
  {
    CompareCases(x, Text(n.chunks));
    var rest := x[|Text(n.chunks)|..];
    Extended(n.chunks, rest, ispref);
    assert Text(n.chunks) + rest == x;
  }

  // Texts never change but by growing, and not any more once they are complete.
  lemma TextsOnlyGrow(n: Name, x: string, ispref: bool)
    requires WellNamed(n) && (ispref || EndsWell(x))
    ensures var m := Updated(n, x, ispref);
            && m.chunks != []
            && Text(n.chunks) <= Text(m.chunks)
            && (Complete(n.chunks) ==> Text(m.chunks) == Text(n.chunks) && Complete(m.chunks))
            && m.prefixLength <= n.prefixLength
  {
    CompareCases(x, Text(n.chunks));
    if Against(x, Text(n.chunks), Complete(n.chunks)) == Extension && (!ispref || |x| > |Text(n.chunks)|) {
      ExtendedWell(n, x, ispref);
    }
  }

  lemma ReplacedInorder(dir: seq<Name>, root: Option<nat>, r: nat, m: Name)
    requires Linked(dir) && At(dir, root) && r < |dir| && m.llink == dir[r].llink && m.rlink == dir[r].rlink
    ensures Linked(dir[r := m]) && Inorder(dir[r := m], root) == Inorder(dir, root)
  {
    var dir' := dir[r := m];
    assert forall i :: 0 <= i < |dir| ==> dir'[i].llink == dir[i].llink && dir'[i].rlink == dir[i].rlink;
    assert forall p :: 0 <= p < |dir| ==> Below(dir[p].llink, p, |dir|) && Below(dir[p].rlink, p, |dir|);
    InorderFrame(dir, dir', root);
  }

  // Shrinking a key to one that no other name fits leaves all in order.
  lemma ShrunkOrdered(dir: seq<Name>, dir': seq<Name>, all: seq<nat>, r: nat, x: string)
    requires Ordered(dir, all) && x <= KeyAt(dir, r) && KeyAt(dir', r) == x
    requires forall i :: i in all && i != r ==> KeyAt(dir', i) == KeyAt(dir, i) && !Fits(x, dir, i)
    ensures Ordered(dir', all)
  {
    forall i, j | 0 <= i < j < |all|
      ensures Before(KeyAt(dir', all[i]), KeyAt(dir', all[j]))
    {
      assert all[i] in all && all[j] in all;
      CompareCases(KeyAt(dir, r), KeyAt(dir, r));
      if all[j] == r && all[i] != r { ShortenedAfter(KeyAt(dir, all[i]), KeyAt(dir, r), x); }
      if all[i] == r && all[j] != r { ShortenedBefore(KeyAt(dir, all[j]), KeyAt(dir, r), x); }
    }
  }

  lemma UpdatedKeys(dir: seq<Name>, r: nat, m: Name)
    requires Named(dir) && r < |dir| && WellNamed(m)
    ensures Named(dir[r := m]) && KeyAt(dir[r := m], r) == KeyAt([m], 0) && KeyAt(dir, r) == KeyAt([dir[r]], 0)
    ensures forall i: nat :: i < |dir| && i != r ==> KeyAt(dir[r := m], i) == KeyAt(dir, i)
  {
  }

  lemma UpdatedOrdered(dir: seq<Name>, all: seq<nat>, x: string, ispref: bool, r: nat)
    requires Named(dir) && (forall i :: i in all ==> i < |dir|) && Ordered(dir, all)
    requires (ispref || EndsWell(x)) && OnlyFits(dir, x, Some(r))
    ensures Ordered(dir[r := Updated(dir[r], x, ispref)], all)
  {
    var m := Updated(dir[r], x, ispref);
    UpdatedWell(dir[r], x, ispref);
    UpdatedKeys(dir, r, m);
    if KeyAt([m], 0) == KeyAt([dir[r]], 0) {
      SameKeysOrdered(dir, dir[r := m], all);
    } else {
      ShrunkOrdered(dir, dir[r := m], all, r, x);
    }
  }

  lemma SameKeysOrdered(dir: seq<Name>, dir': seq<Name>, all: seq<nat>)
    requires Ordered(dir, all) && forall i :: i in all ==> KeyAt(dir', i) == KeyAt(dir, i)
    ensures Ordered(dir', all)
  {
    assert forall i :: 0 <= i < |all| ==> all[i] in all;
  }

  lemma UpdatedValid(dir: seq<Name>, root: Option<nat>, x: string, ispref: bool, r: nat)
    requires ValidTree(dir, root) && (ispref || EndsWell(x)) && OnlyFits(dir, x, Some(r))
    ensures ValidTree(dir[r := Updated(dir[r], x, ispref)], root)
  {
    var m := Updated(dir[r], x, ispref);
    UpdatedWell(dir[r], x, ispref);
    ReplacedInorder(dir, root, r, m);
    UpdatedOrdered(dir, Inorder(dir, root), x, ispref, r);
  }

  // A name is found by every beginning of its text, if no other name fits that too.
  lemma AbbreviationsFit(dir: seq<Name>, i: nat, x: string)
    requires i < |dir| && WellNamed(dir[i]) && Compatible(x, Text(dir[i].chunks))
    ensures Fits(x, dir, i)
  {
    TextBegins(dir[i].chunks);
    assert KeyAt(dir, i) <= Text(dir[i].chunks);
  }

  // ---------- entering a new name ----------

  function NewName(x: string, ispref: bool): Name { Name(|x|, [Chunk(x, ispref)], None, None) }

  lemma NewNameWell(x: string, ispref: bool)
    requires (ispref || EndsWell(x))
    ensures var n := NewName(x, ispref);
            WellNamed(n) && KeyAt([n], 0) == x && Text(n.chunks) == x && Complete(n.chunks) == !ispref
  {
    var c := Chunk(x, ispref);
    assert Body(c) == x;
    assert Text([c]) == x + "" by { assert TextFrom([c], 1) == ""; }
  }

  lemma InsertedOrdered(dir: seq<Name>, dir': seq<Name>, all: seq<nat>, j: nat, n: nat, x: string)
    requires Ordered(dir, all) && j <= |all| && KeyAt(dir', n) == x
    requires forall i :: i in all ==> KeyAt(dir', i) == KeyAt(dir, i)
    requires AllBefore(dir, all, j, x) && AllAfter(dir, all, j, x)
    ensures Ordered(dir', Inserted(all, j, n))
  {
    var s := Inserted(all, j, n);
    forall u, v | 0 <= u < v < |s|
      ensures Before(KeyAt(dir', s[u]), KeyAt(dir', s[v]))
    {
      InsertedAt(all, j, n, u);
      InsertedAt(all, j, n, v);
    }
  }

  lemma InsertedAt(s: seq<nat>, j: nat, n: nat, u: nat)
    requires j <= |s| && u <= |s|
    ensures var t := Inserted(s, j, n);
            |t| == |s| + 1 && (if u < j then t[u] == s[u] && s[u] in s
                               else if u == j then t[u] == n
                               else t[u] == s[u - 1] && s[u - 1] in s)
  {
  }

  lemma HungNames(dir: seq<Name>, par: nat, left: bool, name: Name)
    requires Named(dir) && par < |dir| && WellNamed(name)
    ensures var dir' := Hung(dir, par, left, name);
            && Named(dir') && |dir'| == |dir| + 1 && KeyAt(dir', |dir|) == KeyAt([name], 0)
            && (forall i: nat :: i < |dir| ==> KeyAt(dir', i) == KeyAt(dir, i) && dir'[i].chunks == dir[i].chunks
                                               && dir'[i].prefixLength == dir[i].prefixLength)
  {
  }

  lemma EnteredValid(dir: seq<Name>, root: Option<nat>, x: string, ispref: bool, par: nat, left: bool, k: nat)
    requires ValidTree(dir, root) && (ispref || EndsWell(x))
    requires Slot(dir, Inorder(dir, root), x, Some(par), left, k)
    ensures ValidTree(Hung(dir, par, left, NewName(x, ispref)), root)
  {
    var all, name := Inorder(dir, root), NewName(x, ispref);
    var dir', j := Hung(dir, par, left, name), After(left, k);
    NewNameWell(x, ispref);
    HungNames(dir, par, left, name);
    EnteredInorder(dir, root, par, left, name, k);
    InsertedOrdered(dir, dir', all, j, |dir|, x);
    forall p | 0 <= p < |dir'|
      ensures p in Inserted(all, j, |dir|)
    {
      InsertedHas(all, j, |dir|, p);
    }
  }

  lemma EnteredInorder(dir: seq<Name>, root: Option<nat>, par: nat, left: bool, name: Name, k: nat)
    requires ValidTree(dir, root) && par < |dir| && Free(dir, par, left) && name.llink.None? && name.rlink.None?
    requires k < |Inorder(dir, root)| && Inorder(dir, root)[k] == par
    ensures var dir' := Hung(dir, par, left, name);
            Linked(dir') && At(dir', root) && Inorder(dir', root) == Inserted(Inorder(dir, root), After(left, k), |dir|)
  {
    OrderedDistinct(dir, Inorder(dir, root));
    HungLinked(dir, par, left, name);
    HungInorder(dir, par, left, name, root.value, k);
  }

  lemma InsertedHas(s: seq<nat>, j: nat, n: nat, p: nat)
    requires j <= |s| && (p in s || p == n)
    ensures p in Inserted(s, j, n)
  {
    assert s == s[..j] + s[j..];
  }

  lemma AllThere(dir: seq<Name>, root: Option<nat>, all: seq<nat>, p: nat)
    requires ValidTree(dir, root) && all == Inorder(dir, root) && p < |dir|
    ensures p in all
  {
  }

  lemma EmptyTree(dir: seq<Name>, root: Option<nat>)
    requires ValidTree(dir, root) && Inorder(dir, root) == []
    ensures dir == []
  {
    if dir != [] { AllThere(dir, root, [], 0); }
  }

  lemma FirstValid(x: string, ispref: bool)
    requires (ispref || EndsWell(x))
    ensures ValidTree([NewName(x, ispref)], Some(0))
  {
    NewNameWell(x, ispref);
    LeafInorder([NewName(x, ispref)], 0);
  }

  // What a lookup answers: the name found or entered, or why it was refused.
  datatype Answer = AmbiguousPrefix | Entered(i: nat) | Known(i: nat) | Refused(i: nat, why: Verdict)

  // ---------- the tree ----------

  class SectionTree {
    var dir: seq<Name>
    var root: Option<nat>

    // The keys are in the order of the tree, and none of them abbreviates another.
    ghost predicate Valid()
      reads this
    {
      ValidTree(dir, root)
    }

    constructor ()
      ensures Valid() && dir == []
    {
      dir, root := [], None;
    }

    // section_lookup: ambiguous exactly if two names fit; if one does it is the answer, its
    // text and key brought up to date; otherwise x is entered as a new name.
    method SectionLookup(x: string, ispref: bool) returns (o: Answer)
      requires Valid() && (ispref || EndsWell(x))
      modifies this
      ensures Valid()
      ensures o.AmbiguousPrefix? <==> TwoFit(old(dir), x)
      ensures o.AmbiguousPrefix? ==> dir == old(dir) && root == old(root)
      ensures o.Entered? <==> OnlyFits(old(dir), x, None)
      ensures o.Entered? ==> o.i == |old(dir)| && EnteredName(old(dir), dir, x, ispref)
      ensures o.Known? || o.Refused? ==>
                && OnlyFits(old(dir), x, Some(o.i)) && WellNamed(old(dir)[o.i])
                && dir == old(dir)[o.i := Updated(old(dir)[o.i], x, ispref)] && root == old(root)
                && var v := Against(x, Text(old(dir)[o.i].chunks), Complete(old(dir)[o.i].chunks));
                   o == if v == Equal || v == Extension || (v == Prefix && ispref) then Known(o.i) else Refused(o.i, v)
    {
      var f;
      ghost var k;
      f, k := Find(x);
      if f.Ambiguous? { TwoNotOne(dir, x); return AmbiguousPrefix; }
      if f.Missing? {
        OneNotTwo(dir, x, None);
        Enter(x, ispref, f.par, f.left, k);
        return Entered(|dir| - 1);
      }
      OneNotTwo(dir, x, Some(f.r));
      UpdatedValid(dir, root, x, ispref, f.r);
      o := Revise(x, ispref, f.r);
    }

    // The one name that fits, brought up to date.
    method Revise(x: string, ispref: bool, r: nat) returns (o: Answer)
      requires r < |dir| && WellNamed(dir[r])
      modifies this`dir
      ensures dir == old(dir)[r := Updated(old(dir)[r], x, ispref)]
      ensures var v := Against(x, Text(old(dir)[r].chunks), Complete(old(dir)[r].chunks));
              o == if v == Equal || v == Extension || (v == Prefix && ispref) then Known(r) else Refused(r, v)
    {
      var n := dir[r];
      assert dir == dir[r := n];
      var c, first := SectionNameCmp(x, n.chunks);
      match c {
        case Prefix =>
          if !ispref { return Refused(r, Prefix); }
          if |x| < n.prefixLength { dir := dir[r := n.(prefixLength := |x|)]; }
          return Known(r);
        case Equal => return Known(r);
        case Extension =>
          if !ispref || first < |x| { dir := dir[r := n.(chunks := n.chunks + [Chunk(x[first..], ispref)])]; }
          return Known(r);
        case _ => return Refused(r, c);
      }
    }

    // add_section_name
    method Enter(x: string, ispref: bool, par: Option<nat>, left: bool, ghost k: nat)
      requires Valid() && (ispref || EndsWell(x)) && Slot(dir, Inorder(dir, root), x, par, left, k)
      modifies this
      ensures Valid() && EnteredName(old(dir), dir, x, ispref)
    {
      NewNameWell(x, ispref);
      if par.None? {
        FirstValid(x, ispref);
        EmptyTree(dir, root);
        dir, root := [NewName(x, ispref)], Some(0);
      } else {
        EnteredValid(dir, root, x, ispref, par.value, left, k);
        HungNames(dir, par.value, left, NewName(x, ispref));
        dir := Hung(dir, par.value, left, NewName(x, ispref));
      }
    }

    // The search.
    method Find(x: string) returns (o: Search, ghost k: nat)
      requires Valid()
      ensures o.Ambiguous? ==> TwoFit(dir, x)
      ensures o.Unique? ==> OnlyFits(dir, x, Some(o.r))
      ensures o.Missing? ==> OnlyFits(dir, x, None) && Slot(dir, Inorder(dir, root), x, o.par, o.left, k)
    {
      ghost var all := Inorder(dir, root);
      var at := Cursor(root, None, None, None, false);
      ghost var ext := Extent(0, |all|, |all|, |all|);
      while at.p.Some?
        invariant On(dir, all, x, at, ext)
        decreases Width(ext)
      {
        var twice;
        twice, at, ext := Visit(x, at, ext);
        if twice { return Ambiguous, 0; }
      }
      o, k := Report(x, at, ext);
    }

    // What the search comes to when there is nothing left.
    method Report(x: string, at: Cursor, ghost ext: Extent) returns (o: Search, ghost k: nat)
      requires Valid() && On(dir, Inorder(dir, root), x, at, ext) && at.p.None?
      ensures !o.Ambiguous?
      ensures o.Unique? ==> OnlyFits(dir, x, Some(o.r))
      ensures o.Missing? ==> OnlyFits(dir, x, None) && Slot(dir, Inorder(dir, root), x, o.par, o.left, k)
    {
      Concluded(dir, root, x, at.r, ext.a, ext.b, ext.c, ext.d);
      if at.r.Some? { return Unique(at.r.value), 0; }
      SlotHere(dir, Inorder(dir, root), x, at.par, at.left, ext.a, ext.b, ext.c, ext.d);
      k := if at.left then ext.b else if ext.a > 0 then ext.a - 1 else 0;
      return Missing(at.par, at.left), k;
    }

    // One turn of its loop.
    method Visit(x: string, at: Cursor, ghost ext: Extent) returns (twice: bool, at': Cursor, ghost ext': Extent)
      requires Valid() && at.p.Some? && On(dir, Inorder(dir, root), x, at, ext)
      ensures if twice then TwoFit(dir, x) else On(dir, Inorder(dir, root), x, at', ext') && Width(ext') < Width(ext)
    {
      ghost var all := Inorder(dir, root);
      var n := at.p.value;
      var v := WebStrcmp(x, KeyAt(dir, n));
      CompareCases(x, KeyAt(dir, n));
      twice := false;
      if v == Less {
        at', ext' := GoLeft(dir, all, x, at, ext);
      } else if v == Greater {
        at', ext' := GoRight(dir, all, x, at, ext);
      } else if at.r.Some? {
        SecondMet(dir, root, x, at.p, at.q, at.r, ext.a, ext.b, ext.c, ext.d);
        return true, at, ext;
      } else {
        at', ext' := Take(dir, all, x, at, ext);
      }
      if at'.p.None? { at', ext' := Turn(dir, all, x, at', ext'); }
    }

    static method GoLeft(dir: seq<Name>, ghost all: seq<nat>, ghost x: string, at: Cursor, ghost ext: Extent)
      returns (at': Cursor, ghost ext': Extent)
      requires On(dir, all, x, at, ext) && Ordered(dir, all) && at.p.Some? && Before(x, KeyAt(dir, at.p.value))
      ensures Unturned(dir, all, x, at', ext') && Width(ext') < Width(ext)
    {
      var m := GoneLeft(dir, all, x, at.p, at.q, at.r, ext.a, ext.b, ext.c, ext.d);
      ext' := ext.(b := m);
      at' := at.(p := dir[at.p.value].llink);
      if at.r.None? { at' := at'.(par := at.p, left := true); }
    }

    static method GoRight(dir: seq<Name>, ghost all: seq<nat>, ghost x: string, at: Cursor, ghost ext: Extent)
      returns (at': Cursor, ghost ext': Extent)
      requires On(dir, all, x, at, ext) && Ordered(dir, all) && at.p.Some? && Before(KeyAt(dir, at.p.value), x)
      ensures Unturned(dir, all, x, at', ext') && Width(ext') < Width(ext)
    {
      var m := GoneRight(dir, all, x, at.p, at.q, at.r, ext.a, ext.b, ext.c, ext.d);
      ext' := ext.(a := m + 1);
      at' := at.(p := dir[at.p.value].rlink);
      if at.r.None? { at' := at'.(par := at.p, left := false); }
    }

    static method Take(dir: seq<Name>, ghost all: seq<nat>, ghost x: string, at: Cursor, ghost ext: Extent)
      returns (at': Cursor, ghost ext': Extent)
      requires On(dir, all, x, at, ext) && at.p.Some? && at.r.None? && Fits(x, dir, at.p.value)
      ensures Unturned(dir, all, x, at', ext') && Width(ext') < Width(ext)
    {
      var m := Met(dir, all, x, at.p, ext.a, ext.b, ext.c);
      ext' := Extent(ext.a, m, m + 1, ext.b);
      at' := at.(p := dir[at.p.value].llink, q := dir[at.p.value].rlink, r := at.p);
    }

    // With nothing left at p, on to q.
    static method Turn(ghost dir: seq<Name>, ghost all: seq<nat>, ghost x: string, at: Cursor, ghost ext: Extent)
      returns (at': Cursor, ghost ext': Extent)
      requires Unturned(dir, all, x, at, ext) && at.p.None?
      ensures On(dir, all, x, at', ext') && Width(ext') <= Width(ext)
    {
      at', ext' := at.(p := at.q, q := None), ext;
      if at.r.Some? {
        Turned(dir, all, x, at.q, at.r, ext.a, ext.b, ext.c, ext.d);
        ext' := Extent(ext.c, ext.d, ext.d, ext.d);
      }
    }
  }

  // dir' is dir with x as a new name at its end, the other names untouched.
  ghost predicate EnteredName(dir: seq<Name>, dir': seq<Name>, x: string, ispref: bool) {
    && |dir'| == |dir| + 1
    && (forall i: nat :: i < |dir| ==> dir'[i].chunks == dir[i].chunks && dir'[i].prefixLength == dir[i].prefixLength)
    && dir'[|dir|] == NewName(x, ispref)
    && KeyAt(dir', |dir|) == x && Text(dir'[|dir|].chunks) == x && Complete(dir'[|dir|].chunks) == !ispref
  }

  lemma TwoNotOne(dir: seq<Name>, x: string)
    requires TwoFit(dir, x)
    ensures forall r: Option<nat> :: !OnlyFits(dir, x, r)
  {
    var i, j :| 0 <= i < j < |dir| && Fits(x, dir, i) && Fits(x, dir, j);
    forall r: Option<nat>
      ensures !OnlyFits(dir, x, r)
    {
      assert Some(i) != r || Some(j) != r;
    }
  }

  lemma OneNotTwo(dir: seq<Name>, x: string, r: Option<nat>)
    requires OnlyFits(dir, x, r)
    ensures !TwoFit(dir, x)
    ensures r.Some? ==> !OnlyFits(dir, x, None)
  {
    if TwoFit(dir, x) { TwoNotOne(dir, x); }
  }

  // Where the search is: names p and q, found r, parent of p and side.
  datatype Cursor = Cursor(p: Option<nat>, q: Option<nat>, r: Option<nat>, par: Option<nat>, left: bool)

  // ... and what parts of the whole p and q are.
  datatype Extent = Extent(a: nat, b: nat, c: nat, d: nat)

  function Width(s: Extent): int { s.b - s.a + (s.d - s.c) }

  ghost predicate Unturned(dir: seq<Name>, all: seq<nat>, x: string, at: Cursor, s: Extent) {
    && Searching(dir, all, x, at.p, at.q, at.r, s.a, s.b, s.c, s.d)
    && (at.r.None? ==> Came(dir, all, at.p, at.par, at.left, s.a, s.b))
  }

  ghost predicate On(dir: seq<Name>, all: seq<nat>, x: string, at: Cursor, s: Extent) {
    Unturned(dir, all, x, at, s) && (at.p.None? ==> at.q.None?)
  }
}
