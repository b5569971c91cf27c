// How the replacement texts are chained as they are scanned: macros apart, the unnamed
// texts in one chain, those of each section name in one of its own.
module TextChains {
  import opened Codes
  import opened Expansion

  // Whose text a text is.
  datatype Owner = Macro | Unnamed | Named(n: nat)

  // The texts of an owner in the order of their definition; text i + 1 is the i-th defined.
  function Listed(history: seq<Owner>, o: Owner): (s: seq<nat>)
    ensures forall t :: t in s <==> 1 <= t <= |history| && history[t - 1] == o
  {
    if history == [] then []
    else
      var n := |history| - 1;
      Listed(history[..n], o) + (if history[n] == o then [n + 1] else [])
  }

  lemma {:induction false} ListedAscends(history: seq<Owner>, o: Owner)
    ensures forall i, j :: 0 <= i < j < |Listed(history, o)| ==> Listed(history, o)[i] < Listed(history, o)[j]
  {
    if history != [] {
      var n := |history| - 1;
      ListedAscends(history[..n], o);
      var s := Listed(history[..n], o);
      assert forall i :: 0 <= i < |s| ==> s[i] in s;
    }
  }

  lemma ListedNext(history: seq<Owner>, o: Owner, next: Owner)
    ensures Listed(history + [next], o) == Listed(history, o) + (if next == o then [|history| + 1] else [])
  {
    assert (history + [next])[..|history|] == history;
  }

  ghost predicate LinksOnward(link: seq<nat>) {
    forall t :: 0 <= t < |link| ==> link[t] == 0 || link[t] == SECTION_FLAG || t < link[t] < |link| <= SECTION_FLAG
  }

  // Following the links from t.
  ghost function Chain(link: seq<nat>, t: nat): (s: seq<nat>)
    ensures forall u :: u in s ==> t <= u < |link|
    decreases |link| - t
  {
    if t >= |link| then []
    else [t] + (if t < link[t] < |link| then Chain(link, link[t]) else [])
  }

  // A chain is not affected by links of texts outside it.
  lemma {:induction false} ChainFrame(link: seq<nat>, link': seq<nat>, t: nat)
    requires t < |link| <= |link'| <= SECTION_FLAG && LinksOnward(link)
    requires forall u :: u in Chain(link, t) ==> u < |link| && link'[u] == link[u]
    ensures Chain(link', t) == Chain(link, t)
    decreases |link| - t
  {
    assert t in Chain(link, t);
    if t < link[t] < |link| {
      assert Chain(link, t) == [t] + Chain(link, link[t]);
      ChainFrame(link, link', link[t]);
    }
  }

  // Where a chain ends, another text can be added to it.
  lemma {:induction false} ChainExtended(link: seq<nat>, t: nat, q: nat)
    requires t <= q < |link| < SECTION_FLAG && LinksOnward(link) && q in Chain(link, t) && link[q] == SECTION_FLAG
    ensures Chain(link[q := |link|] + [SECTION_FLAG], t) == Chain(link, t) + [|link|]
    decreases |link| - t
  {
    var link' := link[q := |link|] + [SECTION_FLAG];
    if t == q {
      assert Chain(link', |link|) == [|link|];
    } else {
      assert link'[t] == link[t] && q in [t] + (if t < link[t] < |link| then Chain(link, link[t]) else []);
      assert q in Chain(link, link[t]);
      ChainExtended(link, link[t], q);
    }
  }

  // The chain from head lists exactly the texts of o; there is none if o has no texts.
  ghost predicate Lists(link: seq<nat>, head: nat, history: seq<Owner>, o: Owner) {
    if head == 0 then Listed(history, o) == [] else head < |link| && Chain(link, head) == Listed(history, o)
  }

  // ---------- the directory of texts ----------

  // The links are those that the history of definitions calls for.
  ghost predicate Ordered(link: seq<nat>, equiv: seq<nat>, history: seq<Owner>) {
    && |link| == |history| + 1 <= SECTION_FLAG && LinksOnward(link)
    && (forall t :: 1 <= t < |link| ==> (link[t] == 0 <==> history[t - 1] == Macro))
    && (link[0] != SECTION_FLAG && Lists(link, link[0], history, Unnamed))
    && (forall n :: 1 <= n < |equiv| ==> Lists(link, equiv[n], history, Named(n)))
    && (|equiv| > 0 ==> equiv[0] == 0)
    && (forall i :: 0 <= i < |history| && history[i].Named? ==> 1 <= history[i].n < |equiv|)
  }

  // A chain that is not added to stays as it is when a text of another owner comes in, and
  // q, of that owner, is made to lead to it.
  lemma OthersStay(link: seq<nat>, link': seq<nat>, head: nat, history: seq<Owner>, o: Owner, next: Owner)
    requires |link| == |history| + 1 && |link'| == |link| + 1 <= SECTION_FLAG && LinksOnward(link)
    requires Lists(link, head, history, o) && o != next
    requires forall u :: 1 <= u < |link| && history[u - 1] == o ==> link'[u] == link[u]
    ensures Lists(link', head, history + [next], o)
  {
    ListedNext(history, o, next);
    if head != 0 { ChainFrame(link, link', head); }
  }

  // The first text of an owner.
  lemma ChainBegins(link: seq<nat>, link': seq<nat>, history: seq<Owner>, o: Owner)
    requires |link| == |history| + 1 && |link'| == |link| + 1 <= SECTION_FLAG && Lists(link, 0, history, o)
    requires link'[|link|] == SECTION_FLAG
    ensures Lists(link', |link|, history + [o], o)
  {
    ListedNext(history, o, o);
    assert Chain(link', |link|) == [|link|];
  }

  // Another text of an owner that has some.
  lemma ChainGoesOn(link: seq<nat>, head: nat, q: nat, history: seq<Owner>, o: Owner)
    requires |link| == |history| + 1 < SECTION_FLAG && LinksOnward(link) && head != 0 && Lists(link, head, history, o)
    requires q in Chain(link, head) && link[q] == SECTION_FLAG
    ensures Lists(link[q := |link|] + [SECTION_FLAG], head, history + [o], o)
  {
    ListedNext(history, o, o);
    ChainExtended(link, head, q);
  }

  // Links after a definition by next keep to it if they change no text of another owner and
  // the owner's own chain is right.
  lemma Defined(link: seq<nat>, link': seq<nat>, equiv: seq<nat>, equiv': seq<nat>, history: seq<Owner>, next: Owner)
    requires Ordered(link, equiv, history) && |equiv'| == |equiv|
    requires |link'| == |link| + 1 <= SECTION_FLAG && LinksOnward(link') && link'[0] != SECTION_FLAG
    requires forall u :: 1 <= u < |link| && history[u - 1] != next ==> link'[u] == link[u]
    requires forall u :: 1 <= u < |link'| ==> (link'[u] == 0 <==> (history + [next])[u - 1] == Macro)
    requires next != Unnamed ==> link'[0] == link[0]
    requires next.Named? ==> 1 <= next.n < |equiv|
    requires |equiv| > 0 ==> equiv'[0] == 0
    requires next == Unnamed ==> Lists(link', link'[0], history + [next], Unnamed)
    requires forall n :: 1 <= n < |equiv| ==>
               if next == Named(n) then Lists(link', equiv'[n], history + [next], Named(n)) else equiv'[n] == equiv[n]
    ensures Ordered(link', equiv', history + [next])
  {
    if next != Unnamed { OthersStay(link, link', link[0], history, Unnamed, next); }
    forall n | 1 <= n < |equiv|
      ensures Lists(link', equiv'[n], history + [next], Named(n))
    {
      if next != Named(n) { OthersStay(link, link', equiv[n], history, Named(n), next); }
    }
  }

  // The end of the unnamed chain: text 0 if there is none yet.
  ghost predicate LastUnnamed(link: seq<nat>, q: nat) {
    && 0 < |link| && q < |link|
    && (if link[0] == 0 then q == 0 else q in Chain(link, link[0]) && link[q] == SECTION_FLAG)
  }

  lemma MacroDefined(link: seq<nat>, equiv: seq<nat>, history: seq<Owner>, q: nat)
    requires Ordered(link, equiv, history) && LastUnnamed(link, q) && |link| < SECTION_FLAG
    ensures Ordered(link + [0], equiv, history + [Macro]) && LastUnnamed(link + [0], q)
  {
    Defined(link, link + [0], equiv, equiv, history, Macro);
    if link[0] != 0 { ChainFrame(link, link + [0], link[0]); }
  }

  lemma UnnamedDefined(link: seq<nat>, equiv: seq<nat>, history: seq<Owner>, q: nat)
    requires Ordered(link, equiv, history) && LastUnnamed(link, q) && |link| < SECTION_FLAG
    ensures var link' := link[q := |link|] + [SECTION_FLAG];
            Ordered(link', equiv, history + [Unnamed]) && LastUnnamed(link', |link|)
  {
    var link' := link[q := |link|] + [SECTION_FLAG];
    UnnamedChain(link, history, q);
    Defined(link, link', equiv, equiv, history, Unnamed);
  }

  lemma UnnamedChain(link: seq<nat>, history: seq<Owner>, q: nat)
    requires 0 < |link| == |history| + 1 && |link| < SECTION_FLAG && LastUnnamed(link, q)
    requires Lists(link, link[0], history, Unnamed) && LinksOnward(link)
    ensures var link' := link[q := |link|] + [SECTION_FLAG];
            Lists(link', link'[0], history + [Unnamed], Unnamed) && LastUnnamed(link', |link|)
  {
    var link' := link[q := |link|] + [SECTION_FLAG];
    if link[0] == 0 {
      ChainBegins(link, link', history, Unnamed);
      assert Chain(link', |link|) == [|link|];
    } else {
      assert q in Listed(history, Unnamed);
      ChainGoesOn(link, link[0], q, history, Unnamed);
      ChainExtended(link, link[0], q);
    }
  }

  lemma FirstNamedDefined(link: seq<nat>, equiv: seq<nat>, history: seq<Owner>, n: nat, l: nat)
    requires Ordered(link, equiv, history) && LastUnnamed(link, l) && |link| < SECTION_FLAG
    requires 1 <= n < |equiv| && equiv[n] == 0
    ensures Ordered(link + [SECTION_FLAG], equiv[n := |link|], history + [Named(n)])
    ensures LastUnnamed(link + [SECTION_FLAG], l)
  {
    var link' := link + [SECTION_FLAG];
    ChainBegins(link, link', history, Named(n));
    Defined(link, link', equiv, equiv[n := |link|], history, Named(n));
    UnnamedStays(link, equiv, history, link', l, Named(n));
  }

  lemma NextNamedDefined(link: seq<nat>, equiv: seq<nat>, history: seq<Owner>, n: nat, q: nat, l: nat)
    requires Ordered(link, equiv, history) && LastUnnamed(link, l) && |link| < SECTION_FLAG
    requires 1 <= n < |equiv| && equiv[n] != 0 && q in Chain(link, equiv[n]) && link[q] == SECTION_FLAG
    ensures var link' := link[q := |link|] + [SECTION_FLAG];
            Ordered(link', equiv, history + [Named(n)]) && LastUnnamed(link', l)
  {
    var link' := link[q := |link|] + [SECTION_FLAG];
    OwnedBy(link, equiv[n], q, history, Named(n));
    ChainGoesOn(link, equiv[n], q, history, Named(n));
    NextLinks(link, q, history, Named(n));
    Defined(link, link', equiv, equiv, history, Named(n));
    UnnamedStays(link, equiv, history, link', l, Named(n));
  }

  // A text on the chain of an owner was defined by it.
  lemma OwnedBy(link: seq<nat>, head: nat, q: nat, history: seq<Owner>, o: Owner)
    requires Lists(link, head, history, o) && head != 0 && q in Chain(link, head)
    ensures 1 <= q <= |history| && q < |link| && history[q - 1] == o
  {
    assert q in Listed(history, o);
  }

  // The links when a text that ended a chain leads to a new one.
  lemma NextLinks(link: seq<nat>, q: nat, history: seq<Owner>, o: Owner)
    requires |link| == |history| + 1 < SECTION_FLAG && LinksOnward(link) && o != Macro
    requires 1 <= q < |link| && history[q - 1] == o
    requires forall t :: 1 <= t < |link| ==> (link[t] == 0 <==> history[t - 1] == Macro)
    ensures var link' := link[q := |link|] + [SECTION_FLAG];
            && LinksOnward(link')
            && (forall u :: 1 <= u < |link| && history[u - 1] != o ==> link'[u] == link[u])
            && (forall u :: 1 <= u < |link'| ==> (link'[u] == 0 <==> (history + [o])[u - 1] == Macro))
  {
  }

  lemma UnnamedStays(link: seq<nat>, equiv: seq<nat>, history: seq<Owner>, link': seq<nat>, l: nat, next: Owner)
    requires Ordered(link, equiv, history) && LastUnnamed(link, l) && next != Unnamed
    requires |link'| == |link| + 1 <= SECTION_FLAG && link'[0] == link[0]
    requires forall u :: 1 <= u < |link| && history[u - 1] != next ==> link'[u] == link[u]
    ensures LastUnnamed(link', l)
  {
    if link[0] != 0 {
      assert forall u :: u in Chain(link, link[0]) ==> u in Listed(history, Unnamed);
      ChainFrame(link, link', link[0]);
    }
  }

  // A link of a chain that does not end there leads on along the chain.
  lemma LinkInChain(link: seq<nat>, equiv: seq<nat>, history: seq<Owner>, n: nat, q: nat)
    requires Ordered(link, equiv, history) && 1 <= n < |equiv| && equiv[n] != 0
    requires q in Chain(link, equiv[n]) && link[q] < SECTION_FLAG
    ensures q < link[q] < |link| && link[q] in Chain(link, equiv[n])
  {
    OwnedBy(link, equiv[n], q, history, Named(n));
    ChainNext(link, equiv[n], q);
  }

  class ReplacementTexts {
    var link: seq<nat>
    var equiv: seq<nat>
    var lastUnnamed: nat
    ghost var history: seq<Owner>

    // The chains are what the definitions so far call for.
    ghost predicate Valid()
      reads this
    {
      Ordered(link, equiv, history) && LastUnnamed(link, lastUnnamed)
    }

    constructor (names: nat)
      ensures Valid() && history == [] && |equiv| == names && link == [0]
    {
      link, equiv, lastUnnamed, history := [0], seq(names, _ => 0), 0, [];
    }

    // A macro: link 0.
    method AddMacro() returns (ok: bool)
      requires Valid()
      modifies this
      ensures Valid() && ok == (old(|link|) < SECTION_FLAG) && |equiv| == old(|equiv|)
      ensures history == if ok then old(history) + [Macro] else old(history)
    {
      if |link| == SECTION_FLAG { return false; }
      MacroDefined(link, equiv, history, lastUnnamed);
      link, history := link + [0], history + [Macro];
      return true;
    }

    // A text of the unnamed chain.
    method AddUnnamed() returns (ok: bool)
      requires Valid()
      modifies this
      ensures Valid() && ok == (old(|link|) < SECTION_FLAG) && |equiv| == old(|equiv|)
      ensures history == if ok then old(history) + [Unnamed] else old(history)
    {
      if |link| == SECTION_FLAG { return false; }
      UnnamedDefined(link, equiv, history, lastUnnamed);
      var t := |link|;
      link := link[lastUnnamed := t] + [SECTION_FLAG];
      lastUnnamed := t;
      history := history + [Unnamed];
      return true;
    }

    // A text of section name n.
    method AddNamed(n: nat) returns (ok: bool)
      requires Valid() && 1 <= n < |equiv|
      modifies this
      ensures Valid() && ok == (old(|link|) < SECTION_FLAG) && |equiv| == old(|equiv|)
      ensures history == if ok then old(history) + [Named(n)] else old(history)
    {
      if |link| == SECTION_FLAG { return false; }
      var t := |link|;
      if equiv[n] == 0 {
        FirstNamedDefined(link, equiv, history, n, lastUnnamed);
        equiv := equiv[n := t];
        link := link + [SECTION_FLAG];
      } else {
        var q := LastOf(n);
        NextNamedDefined(link, equiv, history, n, q, lastUnnamed);
        link := link[q := t] + [SECTION_FLAG];
      }
      history := history + [Named(n)];
      return true;
    }

    // The end of the chain of section name n.
    method LastOf(n: nat) returns (q: nat)
      requires Valid() && 1 <= n < |equiv| && equiv[n] != 0
      ensures q in Chain(link, equiv[n]) && link[q] == SECTION_FLAG
    {
      q := equiv[n];
      while link[q] < SECTION_FLAG
        invariant q < |link| && q in Chain(link, equiv[n])
        decreases |link| - q
      {
        LinkInChain(link, equiv, history, n, q);
        q := link[q];
      }
    }

    // The macros that are put out as definitions: every text of link 0.
    method Macros() returns (s: seq<nat>)
      requires Valid()
      ensures s == Listed(history, Macro)
    {
      s := [];
      var t := 1;
      while t < |link|
        invariant 1 <= t <= |link| && s == Listed(history[..t - 1], Macro)
      {
        assert history[..t][..t - 1] == history[..t - 1];
        if link[t] == 0 { s := s + [t]; }
        t := t + 1;
      }
      assert history[..t - 1] == history;
    }
  }

  // A chain goes on where the link of one of its texts leads.
  lemma {:induction false} ChainNext(link: seq<nat>, t: nat, q: nat)
    requires LinksOnward(link) && q in Chain(link, t) && q < link[q] < |link|
    ensures link[q] in Chain(link, t)
    decreases |link| - t
  {
    if q == t {
      assert link[t] in Chain(link, link[t]);
    } else {
      assert Chain(link, t) == [t] + Chain(link, link[t]);
      ChainNext(link, link[t], q);
    }
  }

  // Each text is listed once: by the macros or by one chain.
  lemma EveryTextOnce(link: seq<nat>, equiv: seq<nat>, history: seq<Owner>, t: nat)
    requires Ordered(link, equiv, history) && 1 <= t < |link|
    ensures (t in Listed(history, Macro)) <==> link[t] == 0
    ensures (link[0] != 0 && t in Chain(link, link[0])) <==> history[t - 1] == Unnamed
    ensures forall n :: 1 <= n < |equiv| ==>
              ((equiv[n] != 0 && t in Chain(link, equiv[n])) <==> history[t - 1] == Named(n))
  {
    OnChain(link, link[0], history, Unnamed, t);
    forall n | 1 <= n < |equiv|
      ensures (equiv[n] != 0 && t in Chain(link, equiv[n])) <==> history[t - 1] == Named(n)
    {
      OnChain(link, equiv[n], history, Named(n), t);
    }
  }

  lemma OnChain(link: seq<nat>, head: nat, history: seq<Owner>, o: Owner, t: nat)
    requires Lists(link, head, history, o) && 1 <= t <= |history|
    ensures (head != 0 && t in Chain(link, head)) <==> history[t - 1] == o
  {
    assert t in Listed(history, o) <==> history[t - 1] == o;
  }

  // So the texts and their directories are a program that can be expanded.
  lemma DirectoryValid(texts: seq<seq<Code>>, link: seq<nat>, equiv: seq<nat>, history: seq<Owner>)
    requires Ordered(link, equiv, history) && |texts| == |link|
    requires forall t :: 0 <= t < |texts| ==> WellFormed(texts[t])
    requires var p := Program(texts, link, equiv);
             forall t, k :: 0 <= t < |texts| && 0 <= k < |texts[t]| ==> p.Refers(texts[t][k])
    ensures Program(texts, link, equiv).Valid()
  {
    var p := Program(texts, link, equiv);
    forall t | 0 <= t < |texts|
      ensures p.LinkOk(t)
    {
      LinkLeadsOn(link, equiv, history, t);
    }
    forall n | 0 <= n < |equiv| && equiv[n] != 0
      ensures equiv[n] < |link| && link[equiv[n]] != 0
    {
      assert Lists(link, equiv[n], history, Named(n));
      assert equiv[n] in Chain(link, equiv[n]);
    }
  }

  lemma LinkLeadsOn(link: seq<nat>, equiv: seq<nat>, history: seq<Owner>, t: nat)
    requires Ordered(link, equiv, history) && t < |link|
    ensures link[t] == 0 || link[t] == SECTION_FLAG || (t < link[t] < |link| && link[link[t]] != 0)
  {
    if link[t] != 0 && link[t] != SECTION_FLAG {
      if t == 0 {
        assert link[0] in Chain(link, link[0]);
      } else {
        EveryTextOnce(link, equiv, history, t);
        var o := history[t - 1];
        var head := if o == Unnamed then link[0] else equiv[o.n];
        ChainNext(link, head, t);
        assert Lists(link, head, history, o);
      }
    }
  }
}
