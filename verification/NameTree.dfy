// The tree of section names.  Names enter at the end of a directory and point to their
// children in it; the key of a name is its shortest abbreviation so far, and shrinks.
module NameTree {
  import opened Wrappers
  import opened Strings
  import opened SectionNames

  datatype Name = Name(prefixLength: nat, chunks: seq<string>, llink: Option<nat>, rlink: Option<nat>)

  predicate WellNamed(n: Name) {
    WellChunked(n.chunks) && n.prefixLength <= |Body(n.chunks[0])|
  }

  // Total, for the lemmas' sake; the directory only holds well-named names.
  function KeyAt(dir: seq<Name>, i: nat): string {
    if i < |dir| && WellNamed(dir[i]) then Body(dir[i].chunks[0])[..dir[i].prefixLength] else ""
  }

  predicate Below(link: Option<nat>, p: nat, size: nat) { link.Some? ==> p < link.value < size }

  // Children come later in the directory than their parents.
  ghost predicate Linked(dir: seq<Name>) {
    forall p :: 0 <= p < |dir| ==> Below(dir[p].llink, p, |dir|) && Below(dir[p].rlink, p, |dir|)
  }

  ghost predicate Named(dir: seq<Name>) {
    forall p :: 0 <= p < |dir| ==> WellNamed(dir[p])
  }

  ghost predicate At(dir: seq<Name>, p: Option<nat>) { p.Some? ==> p.value < |dir| }

  // The names at and below p, from left to right.
  ghost function Inorder(dir: seq<Name>, p: Option<nat>): (s: seq<nat>)
    requires Linked(dir) && At(dir, p)
    ensures forall i :: i in s ==> i < |dir|
    decreases if p.Some? then |dir| - p.value else 0
  {
    if p.None? then []
    else Inorder(dir, dir[p.value].llink) + [p.value] + Inorder(dir, dir[p.value].rlink)
  }

  // Each key before the next and none abbreviating another: both the order of the tree and
  // the uniqueness of abbreviations.
  ghost predicate Ordered(dir: seq<Name>, s: seq<nat>) {
    forall i, j :: 0 <= i < j < |s| ==> Before(KeyAt(dir, s[i]), KeyAt(dir, s[j]))
  }

  ghost predicate ValidTree(dir: seq<Name>, root: Option<nat>) {
    && Named(dir) && Linked(dir) && At(dir, root)
    && Ordered(dir, Inorder(dir, root))
    && (forall p :: 0 <= p < |dir| ==> p in Inorder(dir, root))
  }


  // ---------- changing the directory ----------

  // What Inorder reads of a directory.
  ghost predicate SameLinks(dir: seq<Name>, dir': seq<Name>, i: nat)
    requires i < |dir| && i < |dir'|
  {
    dir'[i].llink == dir[i].llink && dir'[i].rlink == dir[i].rlink
  }

  lemma {:induction false} InorderFrame(dir: seq<Name>, dir': seq<Name>, p: Option<nat>)
    requires Linked(dir) && Linked(dir') && At(dir, p) && |dir| <= |dir'|
    requires forall i :: i in Inorder(dir, p) ==> SameLinks(dir, dir', i)
    ensures Inorder(dir', p) == Inorder(dir, p)
    decreases if p.Some? then |dir| - p.value else 0
  {
    if p.Some? {
      assert p.value in Inorder(dir, p);
      InorderFrame(dir, dir', dir[p.value].llink);
      InorderFrame(dir, dir', dir[p.value].rlink);
    }
  }

  // Hanging a new name, at the end of the directory, from par.
  function Hung(dir: seq<Name>, par: nat, left: bool, name: Name): seq<Name>
    requires par < |dir|
  {
    (if left then dir[par := dir[par].(llink := Some(|dir|))] else dir[par := dir[par].(rlink := Some(|dir|))]) + [name]
  }

  predicate Free(dir: seq<Name>, par: nat, left: bool)
    requires par < |dir|
  { if left then dir[par].llink.None? else dir[par].rlink.None? }

  lemma HungLinked(dir: seq<Name>, par: nat, left: bool, name: Name)
    requires Linked(dir) && par < |dir| && name.llink.None? && name.rlink.None?
    ensures Linked(Hung(dir, par, left, name))
  {
  }

  lemma LeafInorder(dir: seq<Name>, p: nat)
    requires Linked(dir) && p < |dir| && dir[p].llink.None? && dir[p].rlink.None?
    ensures Inorder(dir, Some(p)) == [p]
  {
  }

  lemma OrderedDistinct(dir: seq<Name>, s: seq<nat>)
    requires Ordered(dir, s)
    ensures Distinct(s)
  {
    forall i, j | 0 <= i < j < |s|
      ensures s[i] != s[j]
    {
      CompareCases(KeyAt(dir, s[i]), KeyAt(dir, s[j]));
    }
  }

  // Insert x at place k.
  function Inserted(s: seq<nat>, k: nat, x: nat): seq<nat>
    requires k <= |s|
  { s[..k] + [x] + s[k..] }

  lemma InsertedLeft(l: seq<nat>, n: nat, r: seq<nat>, k: nat, x: nat)
    requires k <= |l|
    ensures Inserted(l, k, x) + [n] + r == Inserted(l + [n] + r, k, x)
  {
  }

  lemma InsertedRight(l: seq<nat>, n: nat, r: seq<nat>, k: nat, x: nat)
    requires k <= |r|
    ensures l + [n] + Inserted(r, k, x) == Inserted(l + [n] + r, |l| + 1 + k, x)
  {
  }

  lemma Apart(s: seq<nat>, i: nat, j: nat)
    requires Distinct(s) && i < j < |s|
    ensures s[i] != s[j]
  {
  }

  lemma DistinctParts(l: seq<nat>, n: nat, r: seq<nat>)
    requires Distinct(l + [n] + r)
    ensures Distinct(l) && Distinct(r) && n !in l && n !in r && forall i :: i in l ==> i !in r
  {
    var s := l + [n] + r;
    forall i | i in l
      ensures i != n && i !in r
    {
      var k :| 0 <= k < |l| && l[k] == i;
      assert s[k] == i && s[|l|] == n;
      if i in r {
        var m :| 0 <= m < |r| && r[m] == i;
        Apart(s, k, |l| + 1 + m);
      }
    }
    assert forall k :: 0 <= k < |l| ==> s[k] == l[k];
    assert forall k :: 0 <= k < |r| ==> s[|l| + 1 + k] == r[k];
    assert s[|l|] == n;
  }

  // Where the new name comes in: just before par if hung to its left, just after otherwise.
  lemma {:induction false} HungInorder(dir: seq<Name>, par: nat, left: bool, name: Name, p: nat, k: nat)
    requires Linked(dir) && p < |dir| && par < |dir| && Free(dir, par, left)
    requires name.llink.None? && name.rlink.None?
    requires Distinct(Inorder(dir, Some(p))) && k < |Inorder(dir, Some(p))| && Inorder(dir, Some(p))[k] == par
    requires Linked(Hung(dir, par, left, name))
    ensures Inorder(Hung(dir, par, left, name), Some(p))
         == Inserted(Inorder(dir, Some(p)), After(left, k), |dir|)
    decreases |dir| - p
  {
    if p == par {
      HungHere(dir, par, left, name, k);
    } else if k < |Inorder(dir, dir[p].llink)| {
      OnTheLeft(dir, par, left, name, p, k);
      HungInorder(dir, par, left, name, dir[p].llink.value, k);
      GrownLeft(dir, Hung(dir, par, left, name), p, After(left, k), |dir|);
    } else {
      var j := OnTheRight(dir, par, left, name, p, k);
      HungInorder(dir, par, left, name, dir[p].rlink.value, j);
      GrownRight(dir, Hung(dir, par, left, name), p, After(left, j), |dir|);
    }
  }

  lemma OnTheLeft(dir: seq<Name>, par: nat, left: bool, name: Name, p: nat, k: nat)
    requires Linked(dir) && p < |dir| && par < |dir| && p != par && k < |Inorder(dir, dir[p].llink)|
    requires Distinct(Inorder(dir, Some(p))) && Inorder(dir, Some(p))[k] == par
    ensures dir[p].llink.Some? && Distinct(Inorder(dir, dir[p].llink)) && Inorder(dir, dir[p].llink)[k] == par
    ensures SameLinks(dir, Hung(dir, par, left, name), p)
    ensures forall i :: i in Inorder(dir, dir[p].rlink) ==> SameLinks(dir, Hung(dir, par, left, name), i)
  {
    InLeft(Inorder(dir, dir[p].llink), p, Inorder(dir, dir[p].rlink), k);
  }

  lemma OnTheRight(dir: seq<Name>, par: nat, left: bool, name: Name, p: nat, k: nat) returns (j: nat)
    requires Linked(dir) && p < |dir| && par < |dir| && p != par
    requires |Inorder(dir, dir[p].llink)| <= k < |Inorder(dir, Some(p))|
    requires Distinct(Inorder(dir, Some(p))) && Inorder(dir, Some(p))[k] == par
    ensures k == |Inorder(dir, dir[p].llink)| + 1 + j && j < |Inorder(dir, dir[p].rlink)|
    ensures dir[p].rlink.Some? && Distinct(Inorder(dir, dir[p].rlink)) && Inorder(dir, dir[p].rlink)[j] == par
    ensures SameLinks(dir, Hung(dir, par, left, name), p)
    ensures forall i :: i in Inorder(dir, dir[p].llink) ==> SameLinks(dir, Hung(dir, par, left, name), i)
  {
    InRight(Inorder(dir, dir[p].llink), p, Inorder(dir, dir[p].rlink), k);
    j := k - |Inorder(dir, dir[p].llink)| - 1;
  }

  // Just before place k or just after it.
  function After(left: bool, k: nat): nat { if left then k else k + 1 }

  lemma InLeft(l: seq<nat>, n: nat, r: seq<nat>, k: nat)
    requires k < |l| && Distinct(l + [n] + r)
    ensures Distinct(l) && (l + [n] + r)[k] == l[k] && l[k] !in r
  {
    DistinctParts(l, n, r);
  }

  lemma InRight(l: seq<nat>, n: nat, r: seq<nat>, k: nat)
    requires |l| <= k < |l + [n] + r| && (l + [n] + r)[k] != n && Distinct(l + [n] + r)
    ensures Distinct(r)
    ensures k - |l| - 1 >= 0 && (l + [n] + r)[k] == r[k - |l| - 1] && r[k - |l| - 1] !in l
  {
    DistinctParts(l, n, r);
    assert (l + [n] + r)[|l|] == n;
  }

  // A part of the tree that grows below p, left or right of it.
  lemma GrownLeft(dir: seq<Name>, dir': seq<Name>, p: nat, k: nat, x: nat)
    requires Linked(dir) && Linked(dir') && p < |dir| <= |dir'| && SameLinks(dir, dir', p)
    requires forall i :: i in Inorder(dir, dir[p].rlink) ==> SameLinks(dir, dir', i)
    requires k <= |Inorder(dir, dir[p].llink)|
    requires Inorder(dir', dir[p].llink) == Inserted(Inorder(dir, dir[p].llink), k, x)
    ensures Inorder(dir', Some(p)) == Inserted(Inorder(dir, Some(p)), k, x)
  {
    InorderFrame(dir, dir', dir[p].rlink);
    InsertedLeft(Inorder(dir, dir[p].llink), p, Inorder(dir, dir[p].rlink), k, x);
  }

  lemma GrownRight(dir: seq<Name>, dir': seq<Name>, p: nat, k: nat, x: nat)
    requires Linked(dir) && Linked(dir') && p < |dir| <= |dir'| && SameLinks(dir, dir', p)
    requires forall i :: i in Inorder(dir, dir[p].llink) ==> SameLinks(dir, dir', i)
    requires k <= |Inorder(dir, dir[p].rlink)|
    requires Inorder(dir', dir[p].rlink) == Inserted(Inorder(dir, dir[p].rlink), k, x)
    ensures var j := |Inorder(dir, dir[p].llink)| + 1 + k;
            j <= |Inorder(dir, Some(p))| && Inorder(dir', Some(p)) == Inserted(Inorder(dir, Some(p)), j, x)
  {
    InorderFrame(dir, dir', dir[p].llink);
    InsertedRight(Inorder(dir, dir[p].llink), p, Inorder(dir, dir[p].rlink), k, x);
  }

  lemma HungHere(dir: seq<Name>, par: nat, left: bool, name: Name, k: nat)
    requires Linked(dir) && par < |dir| && Free(dir, par, left)
    requires name.llink.None? && name.rlink.None?
    requires Distinct(Inorder(dir, Some(par))) && k < |Inorder(dir, Some(par))| && Inorder(dir, Some(par))[k] == par
    ensures Linked(Hung(dir, par, left, name))
    ensures Inorder(Hung(dir, par, left, name), Some(par))
         == Inserted(Inorder(dir, Some(par)), After(left, k), |dir|)
  {
    HungLinked(dir, par, left, name);
    var dir' := Hung(dir, par, left, name);
    var l, r := Inorder(dir, dir[par].llink), Inorder(dir, dir[par].rlink);
    DistinctParts(l, par, r);
    assert (l + [par] + r)[|l|] == par;
    assert k == |l|;
    LeafInorder(dir', |dir|);
    if left { InorderFrame(dir, dir', dir[par].rlink); } else { InorderFrame(dir, dir', dir[par].llink); }
  }
}
