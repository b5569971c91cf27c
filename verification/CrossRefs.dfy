// Where each section name is defined, cited and used: the cross-reference lists that CWEAVE
// gathers while it reads, and the footnotes that it makes of them.
module CrossRefs {
  import opened Wrappers
  import opened LinkedLists

  const CITE: nat := 10240
  const DEF: nat := 2 * CITE
  const FILE: nat := 3 * CITE
  const MAX_SECTIONS: nat := 2000

  // ---------- the lists as sequences of numbers ----------

  predicate Flag(f: nat) { f == 0 || f == CITE || f == DEF }

  // How many items are greater than f at the beginning.
  function Above(l: seq<nat>, f: nat): (k: nat)
    ensures k <= |l|
  {
    if l == [] || l[0] <= f then 0 else 1 + Above(l[1..], f)
  }

  // new_section_xref for section number s under flag f.
  function Referred(l: seq<nat>, s: nat, f: nat): seq<nat> {
    var k := Above(l, f);
    if k > 0 && l[k - 1] == s + f then l else l[..k] + [s + f] + l[k..]
  }

  // set_file_flag
  function Filed(l: seq<nat>): seq<nat> { if l != [] && l[0] == FILE then l else [FILE] + l }

  // Section s under one of the flags, or the mark of a file.
  predicate Mark(x: nat, s: nat) {
    x == FILE || DEF + 1 <= x <= DEF + s < FILE || CITE + 1 <= x <= CITE + s < DEF || 1 <= x <= s < CITE
  }

  function Kind(x: nat): nat { if x <= CITE then 0 else if x <= DEF then 1 else if x < FILE then 2 else 3 }

  predicate Follows(x: nat, y: nat) { Kind(x) > Kind(y) || (Kind(x) == Kind(y) && x < y) }

  // A file mark at most, then definitions, citations and uses, each in ascending order, none
  // twice, and all of them in sections up to s.
  ghost predicate Good(l: seq<nat>, s: nat) {
    && (forall i :: 0 <= i < |l| ==> Mark(l[i], s))
    && (forall i, j :: 0 <= i < j < |l| ==> Follows(l[i], l[j]))
  }

  lemma {:induction false} AboveIs(l: seq<nat>, s: nat, f: nat)
    requires Good(l, s) && Flag(f)
    ensures forall i :: 0 <= i < |l| ==> (i < Above(l, f) <==> l[i] > f)
  {
    if l != [] {
      assert forall i :: 0 <= i < |l| - 1 ==> l[1..][i] == l[i + 1];
      AboveIs(l[1..], s, f);
      if l[0] <= f {
        forall i | 0 < i < |l|
          ensures l[i] <= f
        {
          assert Follows(l[0], l[i]) && Mark(l[i], s);
        }
      } else {
        forall i | 0 < i < |l|
          ensures i < Above(l, f) <==> l[i] > f
        {
          assert l[1..][i - 1] == l[i];
        }
      }
    }
  }

  // The list stays good as long as section numbers do not go back.
  lemma ReferredGood(l: seq<nat>, s: nat, f: nat)
    requires Good(l, s) && Flag(f) && 1 <= s < CITE
    ensures Good(Referred(l, s, f), s)
  {
    var k, m := Above(l, f), Referred(l, s, f);
    AboveIs(l, s, f);
    if m != l {
      BeforeNew(l, s, f);
      AfterNew(l, s, f);
    }
  }

  lemma BeforeNew(l: seq<nat>, s: nat, f: nat)
    requires Good(l, s) && Flag(f) && 1 <= s < CITE
    requires forall i :: 0 <= i < |l| ==> (i < Above(l, f) <==> l[i] > f)
    requires Above(l, f) > 0 ==> l[Above(l, f) - 1] != s + f
    ensures forall i :: 0 <= i < Above(l, f) ==> Follows(l[i], s + f)
  {
    var k := Above(l, f);
    forall i | 0 <= i < k
      ensures Follows(l[i], s + f)
    {
      assert Mark(l[i], s) && Mark(l[k - 1], s);
      if i < k - 1 { assert Follows(l[i], l[k - 1]); }
    }
  }

  lemma AfterNew(l: seq<nat>, s: nat, f: nat)
    requires Good(l, s) && Flag(f) && 1 <= s < CITE
    requires forall i :: 0 <= i < |l| ==> (i < Above(l, f) <==> l[i] > f)
    ensures forall i :: Above(l, f) <= i < |l| ==> Follows(s + f, l[i])
  {
    forall i | Above(l, f) <= i < |l|
      ensures Follows(s + f, l[i])
    {
      assert Mark(l[i], s) && l[i] <= f;
    }
  }

  // What it takes to add to a list at place k.
  lemma ReferredAt(l: seq<nat>, s: nat, f: nat, k: nat)
    requires Good(l, s) && Flag(f) && 1 <= s < CITE && k == Above(l, f)
    ensures if k > 0 && l[k - 1] == s + f then Referred(l, s, f) == l
            else Referred(l, s, f) == l[..k] + [s + f] + l[k..] && Referred(l, s, f) != l
                 && Good(l[..k] + [s + f] + l[k..], s)
  {
    ReferredGood(l, s, f);
    assert |l[..k] + [s + f] + l[k..]| == |l| + 1;
  }

  lemma ReferredHas(l: seq<nat>, s: nat, f: nat, x: nat)
    requires Flag(f)
    ensures x in Referred(l, s, f) <==> x in l || x == s + f
  {
    var k := Above(l, f);
    assert l == l[..k] + l[k..];
  }

  lemma FiledGood(l: seq<nat>, s: nat)
    requires Good(l, s)
    ensures Good(Filed(l), s) && (forall x :: x in Filed(l) <==> x in l || x == FILE)
  {
    if Filed(l) != l {
      if l != [] { assert Mark(l[0], s); }
      forall j | 0 <= j < |l|
        ensures Follows(FILE, l[j])
      {
        assert Mark(l[j], s);
        if j > 0 { assert Follows(l[0], l[j]); }
      }
    }
  }

  lemma GoodLater(l: seq<nat>, s: nat, s': nat)
    requires Good(l, s) && s <= s' < CITE
    ensures Good(l, s')
  {
    forall i | 0 <= i < |l|
      ensures Mark(l[i], s')
    {
      assert Mark(l[i], s);
    }
  }

  // ---------- footnotes ----------

  // The section numbers of the items from the beginning that are greater than f.
  function Footnote(l: seq<nat>, f: nat): seq<int> {
    if l == [] || l[0] <= f then [] else [l[0] - f] + Footnote(l[1..], f)
  }

  // The list without the mark of a file; then without the first definition too.
  function Unfiled(l: seq<nat>): seq<nat> { if l != [] && l[0] == FILE then l[1..] else l }

  function Noted(l: seq<nat>): seq<nat> {
    var m := Unfiled(l);
    if m != [] && m[0] > DEF then m[1..] else m
  }

  function Footnotes(l: seq<nat>): (seq<int>, seq<int>, seq<int>) { ThreeNotes(Noted(l)) }

  // What the three footnotes are about.
  function ThreeNotes(m: seq<nat>): (seq<int>, seq<int>, seq<int>) {
    var q := m[Above(m, DEF)..];
    var u := q[Above(q, CITE)..];
    (Footnote(m, DEF), Footnote(q, CITE), Footnote(u, 0))
  }

  predicate Ascends(l: seq<int>) { forall i, j :: 0 <= i < j < |l| ==> l[i] < l[j] }

  lemma {:induction false} FootnoteIs(l: seq<nat>, f: nat)
    ensures |Footnote(l, f)| == Above(l, f)
    ensures forall i :: 0 <= i < Above(l, f) ==> Footnote(l, f)[i] == l[i] - f
  {
    if l != [] && l[0] > f {
      FootnoteIs(l[1..], f);
      forall i | 0 < i < Above(l, f)
        ensures Footnote(l, f)[i] == l[i] - f
      {
        assert l[1..][i - 1] == l[i];
      }
    }
  }

  lemma SuffixGood(l: seq<nat>, k: nat, s: nat)
    requires Good(l, s) && k <= |l|
    ensures Good(l[k..], s)
  {
    forall i | 0 <= i < |l| - k
      ensures Mark(l[k..][i], s)
    {
      assert Mark(l[k + i], s);
    }
    forall i, j | 0 <= i < j < |l| - k
      ensures Follows(l[k..][i], l[k..][j])
    {
      assert Follows(l[k + i], l[k + j]);
    }
  }

  ghost predicate Lists(note: seq<int>, l: seq<nat>, f: nat) {
    forall n: nat :: n in note <==> n > 0 && f + n in l
  }

  ghost predicate Reaches(l: seq<nat>, f: nat) { forall x :: x in l ==> x < f + CITE }

  // m has just the items of l up to f.
  ghost predicate UpTo(m: seq<nat>, l: seq<nat>, f: nat) { forall x :: x in m <==> x in l && x <= f }

  // One footnote lists every section under its flag, in ascending order, and leaves the rest.
  lemma OneFootnote(l: seq<nat>, s: nat, f: nat)
    requires Good(l, s) && Flag(f) && Reaches(l, f)
    ensures Ascends(Footnote(l, f)) && Lists(Footnote(l, f), l, f)
    ensures Good(l[Above(l, f)..], s) && UpTo(l[Above(l, f)..], l, f)
  {
    AboveIs(l, s, f);
    FootnoteIs(l, f);
    SuffixGood(l, Above(l, f), s);
    NoteAscends(l, s, f);
    NoteLists(l, f);
    RestUpTo(l, f);
  }

  lemma NoteAscends(l: seq<nat>, s: nat, f: nat)
    requires Good(l, s) && Flag(f) && Reaches(l, f) && |Footnote(l, f)| == Above(l, f)
    requires forall i :: 0 <= i < Above(l, f) ==> Footnote(l, f)[i] == l[i] - f && l[i] > f
    ensures Ascends(Footnote(l, f))
  {
    forall i, j | 0 <= i < j < Above(l, f)
      ensures l[i] < l[j]
    {
      assert Follows(l[i], l[j]) && l[i] in l && l[j] in l;
    }
  }

  lemma NoteLists(l: seq<nat>, f: nat)
    requires forall i :: 0 <= i < |l| ==> (i < Above(l, f) <==> l[i] > f)
    ensures Lists(Footnote(l, f), l, f)
  {
    var note := Footnote(l, f);
    FootnoteIs(l, f);
    forall n: nat
      ensures n in note <==> n > 0 && f + n in l
    {
      if n in note {
        var i :| 0 <= i < |note| && note[i] == n;
        assert l[i] == f + n;
      }
      if n > 0 && f + n in l {
        var i :| 0 <= i < |l| && l[i] == f + n;
        assert note[i] == n;
      }
    }
  }

  lemma RestUpTo(l: seq<nat>, f: nat)
    requires forall i :: 0 <= i < |l| ==> (i < Above(l, f) <==> l[i] > f)
    ensures UpTo(l[Above(l, f)..], l, f)
  {
    var k := Above(l, f);
    forall x | x in l && x <= f
      ensures x in l[k..]
    {
      var i :| 0 <= i < |l| && l[i] == x;
      assert l[k..][i - k] == x;
    }
  }

  // Without its file mark a list holds everything else; and so again without the first
  // definition.
  ghost predicate HasDefBefore(l: seq<nat>, x: nat) { exists y :: y in l && DEF < y < x }

  lemma UnfiledHas(l: seq<nat>, s: nat, x: nat)
    requires Good(l, s)
    ensures x in Unfiled(l) <==> x in l && x != FILE
  {
    if l != [] {
      assert l == [l[0]] + l[1..];
      assert forall i :: 0 < i < |l| ==> Follows(l[0], l[i]) && Mark(l[i], s);
    }
  }

  lemma NotedHas(m: seq<nat>, s: nat, x: nat)
    requires Good(m, s) && FILE !in m && m != [] && m[0] > DEF
    ensures x in m[1..] <==> x in m && (x > DEF ==> HasDefBefore(m, x))
  {
    assert m == [m[0]] + m[1..] && m[0] in m && Mark(m[0], s);
    if x in m && x != m[0] {
      var i :| 0 <= i < |m| && m[i] == x;
      assert Follows(m[0], m[i]) && Mark(m[i], s) && x != FILE;
    }
    if x == m[0] {
      forall y | y in m
        ensures !(DEF < y < x)
      {
        var i :| 0 <= i < |m| && m[i] == y;
        if i > 0 { assert Follows(m[0], m[i]); }
      }
      forall i | 0 < i < |m|
        ensures m[i] != x
      {
        assert Follows(m[0], m[i]);
      }
    }
  }

  ghost predicate OneDefLess(m: seq<nat>, l: seq<nat>) {
    forall x: nat :: x in m <==> x in l && x != FILE && (x > DEF ==> HasDefBefore(l, x))
  }

  lemma NotedGood(l: seq<nat>, s: nat)
    requires Good(l, s) && s < CITE
    ensures Good(Noted(l), s) && Reaches(Noted(l), DEF)
    ensures OneDefLess(Noted(l), l)
  {
    var m := Unfiled(l);
    if m != l { SuffixGood(l, 1, s); }
    if Noted(l) != m { SuffixGood(m, 1, s); }
    forall x: nat
      ensures x in m <==> x in l && x != FILE
    {
      UnfiledHas(l, s, x);
    }
    forall x: nat
      ensures x in Noted(l) <==> x in l && x != FILE && (x > DEF ==> HasDefBefore(l, x))
    {
      if x > DEF { SameBefore(l, m, x); }
      if m != [] && m[0] > DEF { NotedHas(m, s, x); } else { NoDefs(m, s, x); }
    }
    assert forall x :: x in Noted(l) ==> Mark(x, s);
  }

  lemma SameBefore(l: seq<nat>, m: seq<nat>, x: nat)
    requires (forall y: nat :: y in m <==> y in l && y != FILE) && (x in l ==> x <= FILE)
    ensures x in l ==> (HasDefBefore(l, x) <==> HasDefBefore(m, x))
  {
  }

  lemma NoDefs(m: seq<nat>, s: nat, x: nat)
    requires Good(m, s) && (m == [] || m[0] <= DEF)
    ensures x in m ==> x <= DEF
  {
    if x in m {
      var i :| 0 <= i < |m| && m[i] == x;
      if i > 0 { assert Follows(m[0], m[i]) && Mark(m[i], s); }
    }
  }

  lemma DefNotes(note: seq<int>, m: seq<nat>, l: seq<nat>, s: nat)
    requires Lists(note, m, DEF) && OneDefLess(m, l) && Good(l, s) && s < CITE
    ensures forall n: nat :: n in note <==> 0 < n < CITE && DEF + n in l && HasDefBefore(l, DEF + n)
  {
    assert forall x :: x in l ==> Mark(x, s);
  }

  lemma LowerNotes(note: seq<int>, q: seq<nat>, m: seq<nat>, l: seq<nat>, s: nat, f: nat)
    requires Lists(note, q, f) && (f == CITE || f == 0) && UpTo(q, m, f + CITE) && OneDefLess(m, l)
    requires Good(l, s) && s < CITE
    ensures forall n: nat :: n in note <==> 0 < n < CITE && f + n in l
  {
    assert forall x :: x in l ==> Mark(x, s);
  }

  lemma LowerReach(q: seq<nat>, m: seq<nat>, s: nat, f: nat)
    requires Good(q, s) && s < CITE && UpTo(q, m, f + CITE) && (f == CITE || f == 0)
    ensures Reaches(q, f)
  {
    assert forall x :: x in q ==> Mark(x, s);
  }

  lemma UpToTwice(u: seq<nat>, q: seq<nat>, m: seq<nat>)
    requires UpTo(q, m, DEF) && UpTo(u, q, CITE)
    ensures UpTo(u, m, CITE)
  {
  }

  // The three footnotes name, each in ascending order, just the sections of every definition
  // but the first, of every citation and of every use.
  lemma FootnotesComplete(l: seq<nat>, s: nat)
    requires Good(l, s) && s < CITE
    ensures var (a, q, u) := Footnotes(l);
            && Ascends(a) && Ascends(q) && Ascends(u)
            && (forall n: nat :: n in a <==> 0 < n < CITE && DEF + n in l && HasDefBefore(l, DEF + n))
            && (forall n: nat :: n in q <==> 0 < n < CITE && CITE + n in l)
            && (forall n: nat :: n in u <==> 0 < n < CITE && n in l)
  {
    NotedGood(l, s);
    var m := Noted(l);
    OneFootnote(m, s, DEF);
    DefNotes(Footnote(m, DEF), m, l, s);
    var q := m[Above(m, DEF)..];
    LowerReach(q, m, s, CITE);
    OneFootnote(q, s, CITE);
    LowerNotes(Footnote(q, CITE), q, m, l, s, CITE);
    var u := q[Above(q, CITE)..];
    UpToTwice(u, q, m);
    LowerReach(u, m, s, 0);
    OneFootnote(u, s, 0);
    LowerNotes(Footnote(u, 0), u, m, l, s, 0);
  }

  lemma {:induction false} AboveAt(l: seq<nat>, f: nat, k: nat)
    requires k <= |l| && (forall i :: 0 <= i < k ==> l[i] > f) && (k < |l| ==> l[k] <= f)
    ensures Above(l, f) == k
  {
    if k > 0 {
      assert forall i :: 0 <= i < k - 1 ==> l[1..][i] == l[i + 1];
      AboveAt(l[1..], f, k - 1);
    }
  }

  lemma {:induction false} FootnoteAt(l: seq<nat>, f: nat, k: nat)
    requires k < |l| && k < Above(l, f)
    ensures Footnote(l[k..], f) == [l[k] - f] + Footnote(l[k + 1..], f) && l[k] > f
  {
    assert l[k..][1..] == l[k + 1..];
    if k > 0 {
      assert l[1..][k - 1..] == l[k..] && l[1..][k..] == l[k + 1..];
      FootnoteAt(l[1..], f, k - 1);
    }
  }

  lemma OneMore(m: seq<nat>, f: nat, out: seq<int>, rest: seq<nat>)
    requires rest != [] && rest[0] > f
    requires Footnote(m, f) == out + Footnote(rest, f) && rest[Above(rest, f)..] == m[Above(m, f)..]
    ensures Footnote(m, f) == (out + [rest[0] - f]) + Footnote(rest[1..], f)
    ensures rest[1..][Above(rest[1..], f)..] == m[Above(m, f)..]
  {
    Associative(out, [rest[0] - f], Footnote(rest[1..], f));
  }

  // ---------- the lists as they are kept ----------

  datatype Xref = Xref(num: nat, xlink: nat)

  ghost predicate Within(s: seq<nat>, m: nat) { forall i :: 0 <= i < |s| ==> 1 <= s[i] < m }

  // The numbers of the items s.
  function NumbersOf(mem: seq<Xref>, s: seq<nat>): (l: seq<nat>)
    requires Within(s, |mem|)
  {
    seq(|s|, i requires 0 <= i < |s| => mem[s[i]].num)
  }

  function LinksOf(mem: seq<Xref>): seq<nat> { seq(|mem|, i requires 0 <= i < |mem| => mem[i].xlink) }

  // The items s of name n, none of them also another name's; item 0 ends every list.
  ghost predicate Listed(mem: seq<Xref>, head: nat, s: seq<nat>, owner: seq<nat>, n: nat) {
    && Linked(LinksOf(mem), head, s) && Distinct(s) && |owner| <= |mem|
    && forall i :: 0 <= i < |s| ==> 1 <= s[i] < |owner| && owner[s[i]] == n
  }

  // ... and they make a good list.
  ghost predicate GoodList(mem: seq<Xref>, head: nat, s: seq<nat>, owner: seq<nat>, n: nat, count: nat) {
    Listed(mem, head, s, owner, n) && Within(s, |mem|) && Good(NumbersOf(mem, s), count)
  }

  // Memory with item x after item r, or before all, and q after x.
  function Entered(mem: seq<Xref>, r: nat, q: nat, x: nat, num: nat): seq<Xref>
    requires x < |mem| && r < |mem|
  {
    var m := mem[x := Xref(num, q)];
    if r == 0 then m else m[r := m[r].(xlink := x)]
  }

  // A new item at place k of a list, and what that does to the others.
  lemma EnteredHere(mem: seq<Xref>, head: nat, s: seq<nat>, owner: seq<nat>, n: nat, k: nat, num: nat)
    requires Listed(mem, head, s, owner, n) && k <= |s| && 1 <= |owner| < |mem|
    ensures var x, t := |owner|, s[..k] + [|owner|] + s[k..];
            var m := Entered(mem, if k == 0 then 0 else s[k - 1], Nth(s, k), x, num);
            && Listed(m, if k == 0 then x else head, t, owner + [n], n)
            && Within(s, |mem|) && Within(t, |mem|)
            && NumbersOf(m, t) == NumbersOf(mem, s)[..k] + [num] + NumbersOf(mem, s)[k..]
  {
    var r, q := if k == 0 then 0 else s[k - 1], Nth(s, k);
    EnteredLinks(mem, head, s, owner, n, k, num);
    EnteredOwned(s, owner, n, k);
    EnteredNumbers(mem, s, k, r, q, |owner|, num);
  }

  lemma EnteredLinks(mem: seq<Xref>, head: nat, s: seq<nat>, owner: seq<nat>, n: nat, k: nat, num: nat)
    requires Listed(mem, head, s, owner, n) && k <= |s| && 1 <= |owner| < |mem|
    ensures var x, t := |owner|, s[..k] + [|owner|] + s[k..];
            var m := Entered(mem, if k == 0 then 0 else s[k - 1], Nth(s, k), x, num);
            Linked(LinksOf(m), if k == 0 then x else head, t)
  {
    var x, t := |owner|, s[..k] + [|owner|] + s[k..];
    var m := Entered(mem, if k == 0 then 0 else s[k - 1], Nth(s, k), x, num);
    forall i | 0 <= i < |t|
      ensures LinkAt(LinksOf(m), t, i)
    {
      if i < k { assert LinkAt(LinksOf(mem), s, i); }
      if i > k { assert LinkAt(LinksOf(mem), s, i - 1); }
    }
  }

  lemma EnteredOwned(s: seq<nat>, owner: seq<nat>, n: nat, k: nat)
    requires Distinct(s) && k <= |s| && 1 <= |owner|
    requires forall i :: 0 <= i < |s| ==> 1 <= s[i] < |owner| && owner[s[i]] == n
    ensures var t, o := s[..k] + [|owner|] + s[k..], owner + [n];
            Distinct(t) && forall i :: 0 <= i < |t| ==> 1 <= t[i] < |o| && o[t[i]] == n
  {
  }

  lemma EnteredNumbers(mem: seq<Xref>, s: seq<nat>, k: nat, r: nat, q: nat, x: nat, num: nat)
    requires Within(s, x) && 1 <= x < |mem| && k <= |s| && r < x
    ensures var t := s[..k] + [x] + s[k..];
            && Within(s, |mem|) && Within(t, |mem|)
            && NumbersOf(Entered(mem, r, q, x, num), t) == NumbersOf(mem, s)[..k] + [num] + NumbersOf(mem, s)[k..]
  {
  }

  lemma EnteredElsewhere(mem: seq<Xref>, m: seq<Xref>, head: nat, s: seq<nat>, owner: seq<nat>, n: nat, n': nat)
    requires Listed(mem, head, s, owner, n') && n' != n && |m| == |mem| > |owner|
    requires forall x :: 0 <= x < |owner| && owner[x] == n' ==> m[x] == mem[x]
    ensures Listed(m, head, s, owner + [n], n')
    ensures Within(s, |mem|) && NumbersOf(m, s) == NumbersOf(mem, s)
  {
    forall i | 0 <= i < |s|
      ensures LinkAt(LinksOf(m), s, i)
    {
      assert LinkAt(LinksOf(mem), s, i);
    }
  }

  class CrossReferences {
    const xmem: array<Xref>
    const xref: array<nat>
    var xrefPtr: nat
    var sectionCount: nat
    var sectionXrefSwitch: nat
    var curXref: nat
    ghost var lists: seq<seq<nat>>
    ghost var owner: seq<nat>

    ghost predicate Valid()
      reads this, xmem, xref
    {
      && xrefPtr < xmem.Length && |owner| == xrefPtr + 1 && xmem[0].num == 0 && |lists| == xref.Length
      && 1 <= sectionCount < MAX_SECTIONS && Flag(sectionXrefSwitch)
      && forall n :: 0 <= n < |lists| ==> GoodList(xmem[..], xref[n], lists[n], owner, n, sectionCount)
    }

    // The cross-reference list of name n.
    ghost function Numbers(n: nat): seq<nat>
      reads this, xmem, xref
      requires Valid() && n < |lists|
    {
      assert GoodList(xmem[..], xref[n], lists[n], owner, n, sectionCount);
      NumbersOf(xmem[..], lists[n])
    }

    constructor (xmem: array<Xref>, xref: array<nat>)
      requires xmem.Length > 0
      modifies xmem, xref
      ensures Valid() && this.xmem == xmem && this.xref == xref && |lists| == xref.Length
      ensures sectionCount == 1 && sectionXrefSwitch == 0
      ensures forall n :: 0 <= n < |lists| ==> Numbers(n) == []
    {
      this.xmem, this.xref := xmem, xref;
      xrefPtr, sectionCount, sectionXrefSwitch, curXref := 0, 1, 0, 0;
      lists, owner := seq(xref.Length, _ => []), [0];
      new;
      xmem[0] := Xref(0, 0);
      forall n | 0 <= n < xref.Length { xref[n] := 0; }
    }

    // A section begins.
    method StartSection() returns (ok: bool)
      requires Valid()
      modifies this`sectionCount
      ensures Valid() && ok == (old(sectionCount) + 1 < MAX_SECTIONS)
      ensures sectionCount == if ok then old(sectionCount) + 1 else old(sectionCount)
      ensures forall n :: 0 <= n < |lists| ==> Numbers(n) == old(Numbers(n))
    {
      if sectionCount + 1 == MAX_SECTIONS { return false; }
      sectionCount := sectionCount + 1;
      forall n | 0 <= n < |lists|
        ensures GoodList(xmem[..], xref[n], lists[n], owner, n, sectionCount)
      {
        assert GoodList(xmem[..], xref[n], lists[n], owner, n, sectionCount - 1);
        GoodLater(NumbersOf(xmem[..], lists[n]), sectionCount - 1, sectionCount);
      }
      return true;
    }

    // The items between which the next one of name n belongs; 0 where there is none.
    method FindPlace(n: nat) returns (q: nat, r: nat, ghost k: nat)
      requires Valid() && n < |lists|
      ensures k == Above(Numbers(n), sectionXrefSwitch)
      ensures q == Nth(lists[n], k) && r == if k == 0 then 0 else lists[n][k - 1]
      ensures r < xmem.Length && xmem[r].num == (if k == 0 then 0 else Numbers(n)[k - 1])
      ensures Good(Numbers(n), sectionCount)
    {
      assert GoodList(xmem[..], xref[n], lists[n], owner, n, sectionCount);
      ghost var s, l := lists[n], Numbers(n);
      q, r, k := xref[n], 0, 0;
      while xmem[q].num > sectionXrefSwitch
        invariant k <= |s| && q == Nth(s, k) && r == (if k == 0 then 0 else s[k - 1])
        invariant q < xmem.Length && forall i :: 0 <= i < k ==> l[i] > sectionXrefSwitch
        decreases |s| - k
      {
        assert LinkAt(LinksOf(xmem[..]), s, k);
        r := q;
        q := xmem[q].xlink;
        k := k + 1;
      }
      AboveAt(l, sectionXrefSwitch, k);
    }

    // A new item of name n after item r, with q after it; the switch is set for the next one.
    method Append(n: nat, r: nat, q: nat, num: nat, next: nat, ghost k: nat)
      requires Valid() && n < |lists| && xrefPtr + 1 < xmem.Length && k <= |lists[n]| && Flag(next)
      requires q == Nth(lists[n], k) && r == if k == 0 then 0 else lists[n][k - 1]
      requires var l := Numbers(n); Good(l[..k] + [num] + l[k..], sectionCount)
      modifies this`xrefPtr, this`sectionXrefSwitch, this`lists, this`owner, xmem, xref
      ensures Valid() && |lists| == old(|lists|) && xrefPtr == old(xrefPtr) + 1 && sectionXrefSwitch == next
      ensures var l := old(Numbers(n)); Numbers(n) == l[..k] + [num] + l[k..]
      ensures forall m :: 0 <= m < |lists| && m != n ==> Numbers(m) == old(Numbers(m))
    {
      ghost var was, heads, before, owners := xmem[..], xref[..], lists, owner;
      xrefPtr, sectionXrefSwitch := xrefPtr + 1, next;
      xmem[xrefPtr] := Xref(num, q);
      if r == 0 { xref[n] := xrefPtr; } else { xmem[r] := xmem[r].(xlink := xrefPtr); }
      ghost var s := before[n];
      lists, owner := before[n := s[..k] + [xrefPtr] + s[k..]], owners + [n];
      assert xmem[..] == Entered(was, r, q, xrefPtr, num);
      assert GoodList(was, heads[n], s, owners, n, sectionCount);
      EnteredHere(was, heads[n], s, owners, n, k, num);
      forall m | 0 <= m < |lists| && m != n
        ensures GoodList(xmem[..], xref[m], lists[m], owner, m, sectionCount)
        ensures NumbersOf(xmem[..], lists[m]) == NumbersOf(was, before[m])
      {
        assert GoodList(was, heads[m], before[m], owners, m, sectionCount);
        EnteredElsewhere(was, xmem[..], heads[m], before[m], owners, n, m);
      }
    }

    // new_section_xref: nothing if the last item under the flag is about this section already.
    method NewSectionXref(n: nat) returns (ok: bool)
      requires Valid() && n < |lists|
      modifies this`xrefPtr, this`sectionXrefSwitch, this`lists, this`owner, xmem, xref
      ensures Valid() && |lists| == old(|lists|)
      ensures var l, s, f := old(Numbers(n)), sectionCount, old(sectionXrefSwitch);
              && (ok <==> Referred(l, s, f) == l || old(xrefPtr) + 1 < xmem.Length)
              && Numbers(n) == (if ok then Referred(l, s, f) else l)
              && sectionXrefSwitch == if ok && Referred(l, s, f) != l then 0 else f
      ensures forall m :: 0 <= m < |lists| && m != n ==> Numbers(m) == old(Numbers(m))
    {
      ghost var l := Numbers(n);
      ghost var k;
      var q, r;
      q, r, k := FindPlace(n);
      ghost var l' := Referred(l, sectionCount, sectionXrefSwitch);
      ReferredAt(l, sectionCount, sectionXrefSwitch, k);
      if xmem[r].num == sectionCount + sectionXrefSwitch { return true; }
      ok := AppendSection(n, r, q, k, l, l');
    }

    method AppendSection(n: nat, r: nat, q: nat, ghost k: nat, ghost l: seq<nat>, ghost l': seq<nat>)
      returns (ok: bool)
      requires Valid() && n < |lists| && k <= |lists[n]| && l == Numbers(n) && Good(l', sectionCount)
      requires q == Nth(lists[n], k) && r == if k == 0 then 0 else lists[n][k - 1]
      requires l' == l[..k] + [sectionCount + sectionXrefSwitch] + l[k..]
      modifies this`xrefPtr, this`sectionXrefSwitch, this`lists, this`owner, xmem, xref
      ensures Valid() && |lists| == old(|lists|) && ok == (old(xrefPtr) + 1 < xmem.Length)
      ensures Numbers(n) == if ok then l' else l
      ensures sectionXrefSwitch == if ok then 0 else old(sectionXrefSwitch)
      ensures forall m :: 0 <= m < |lists| && m != n ==> Numbers(m) == old(Numbers(m))
    {
      if xrefPtr == xmem.Length - 1 { return false; }
      Append(n, r, q, sectionCount + sectionXrefSwitch, 0, k);
      return true;
    }

    // set_file_flag
    method SetFileFlag(n: nat) returns (ok: bool)
      requires Valid() && n < |lists|
      modifies this`xrefPtr, this`sectionXrefSwitch, this`lists, this`owner, xmem, xref
      ensures Valid() && |lists| == old(|lists|) && sectionXrefSwitch == old(sectionXrefSwitch)
      ensures var l := old(Numbers(n));
              && (ok <==> Filed(l) == l || old(xrefPtr) + 1 < xmem.Length)
              && Numbers(n) == if ok then Filed(l) else l
      ensures forall m :: 0 <= m < |lists| && m != n ==> Numbers(m) == old(Numbers(m))
    {
      ghost var l := Numbers(n);
      assert GoodList(xmem[..], xref[n], lists[n], owner, n, sectionCount);
      FiledGood(l, sectionCount);
      var q := xref[n];
      if xmem[q].num == FILE { return true; }
      assert |Filed(l)| == |l| + 1 && Filed(l) == l[..0] + [FILE] + l[0..];
      if xrefPtr == xmem.Length - 1 { return false; }
      Append(n, 0, q, FILE, sectionXrefSwitch, 0);
      return true;
    }

    // The current item is place k of the list s; m is what is left from there.
    ghost predicate AtPlace(s: seq<nat>, k: nat, m: seq<nat>)
      reads this, xmem
    {
      && xmem.Length > 0 && xmem[0].num == 0 && Linked(LinksOf(xmem[..]), Nth(s, 0), s) && Within(s, xmem.Length)
      && k <= |s| && curXref == Nth(s, k) && m == NumbersOf(xmem[..], s)[k..]
    }

    // On to the next item.
    method NextXref(ghost s: seq<nat>, ghost k: nat, ghost m: seq<nat>) returns (num: nat)
      requires AtPlace(s, k, m) && m != []
      modifies this`curXref
      ensures num == m[0] && AtPlace(s, k + 1, m[1..])
    {
      assert LinkAt(LinksOf(xmem[..]), s, k);
      num := xmem[curXref].num;
      curXref := xmem[curXref].xlink;
    }

    lemma NumberHere(s: seq<nat>, k: nat, m: seq<nat>)
      requires AtPlace(s, k, m)
      ensures curXref < xmem.Length && xmem[curXref].num == if m == [] then 0 else m[0]
    {
    }

    // footnote: the sections from the current item on, as far as the items are above f.
    method PutFootnote(f: nat, ghost s: seq<nat>, ghost k: nat, ghost m: seq<nat>)
      returns (out: seq<int>, ghost k': nat, ghost m': seq<nat>)
      requires AtPlace(s, k, m)
      modifies this`curXref
      ensures out == Footnote(m, f) && m' == m[Above(m, f)..] && AtPlace(s, k', m')
    {
      out, k', m' := [], k, m;
      NumberHere(s, k', m');
      while xmem[curXref].num > f
        invariant AtPlace(s, k', m') && curXref < xmem.Length && xmem[curXref].num == if m' == [] then 0 else m'[0]
        invariant Footnote(m, f) == out + Footnote(m', f) && m'[Above(m', f)..] == m[Above(m, f)..]
        decreases |m'|
      {
        ghost var before := m';
        var num := NextXref(s, k', before);
        OneMore(m, f, out, before);
        out, k', m' := out + [num - f], k' + 1, before[1..];
        NumberHere(s, k', m');
      }
    }

    // To the first item that the footnotes are about.
    method SkipFirst(n: nat, ghost s: seq<nat>, ghost l: seq<nat>) returns (ghost k: nat)
      requires Valid() && n < |lists| && s == lists[n] && l == Numbers(n)
      modifies this`curXref
      ensures AtPlace(s, k, Noted(l))
    {
      assert GoodList(xmem[..], xref[n], s, owner, n, sectionCount);
      curXref, k := xref[n], 0;
      NumberHere(s, k, l);
      if xmem[curXref].num == FILE {
        var _ := NextXref(s, k, l);
        k := 1;
      }
      NumberHere(s, k, Unfiled(l));
      if xmem[curXref].num > DEF {
        var _ := NextXref(s, k, Unfiled(l));
        k := k + 1;
      }
    }

    // The footnotes of name n.
    method PutFootnotes(n: nat) returns (a: seq<int>, q: seq<int>, u: seq<int>)
      requires Valid() && n < |lists|
      modifies this`curXref
      ensures (a, q, u) == Footnotes(Numbers(n))
    {
      ghost var s, l := lists[n], Numbers(n);
      ghost var k := SkipFirst(n, s, l);
      a, q, u := PutThree(s, k, Noted(l));
    }

    method PutThree(ghost s: seq<nat>, ghost k: nat, ghost m: seq<nat>)
      returns (a: seq<int>, q: seq<int>, u: seq<int>)
      requires AtPlace(s, k, m)
      modifies this`curXref
      ensures (a, q, u) == ThreeNotes(m)
    {
      ghost var k1, k2, k3, m1, m2, m3;
      a, k1, m1 := PutFootnote(DEF, s, k, m);
      q, k2, m2 := PutFootnote(CITE, s, k1, m1);
      u, k3, m3 := PutFootnote(0, s, k2, m2);
    }
  }
}
