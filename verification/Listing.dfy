// What a program says, item by item: the text of a section as it stands, and where a section
// name stands, the texts of that name.
module Listing {
  import opened Wrappers
  import opened Codes
  import opened Items
  import opened Expansion
  import opened TextChains

  // The items of every text, and whose texts they are.
  datatype Web = Web(items: seq<seq<Item>>, history: seq<Owner>)

  function Bytewise(text: seq<nat>): seq<Event> { seq(|text|, k requires 0 <= k < |text| => Byte(text[k])) }

  // An item other than a section name.
  function Said(i: Item): seq<Event>
    requires !i.SectionName?
  {
    match i
    case Char(c) => [Byte(c)]
    case Identifier(n) => [Name(n)]
    case OutputDefs => [Defs]
    case SectionNumber(n) => [Open(n)]
    case LineMark(number, file) => [LineInfo(number, file)]
    case Literal(d, text) => [Byte(d)] + Bytewise(text) + [Byte(d)]
  }

  function ItemOut(w: Web, i: Item, d: nat): seq<Event>
    decreases d, 0, 0
  {
    if !i.SectionName? then Said(i)
    else
      var texts := Listed(w.history, Named(i.n));
      if texts == [] then (if i.n == 0 then [] else [NotPresent(i.n)])
      else if d == 0 then []
      else SectionsOut(w, texts, d - 1)
  }

  function ItemsOut(w: Web, items: seq<Item>, d: nat): seq<Event>
    decreases d, 1, |items|
  {
    if items == [] then [] else ItemOut(w, items[0], d) + ItemsOut(w, items[1..], d)
  }

  // A section's text, between its number and the end of the section.
  function SectionOut(w: Web, t: nat, d: nat): seq<Event>
    decreases d, 2, 0
  {
    if t < |w.items| && w.items[t] != [] && w.items[t][0].SectionNumber? then
      var s := w.items[t][0].n;
      [Open(s)] + ItemsOut(w, w.items[t][1..], d) + [Close(s)]
    else []
  }

  function SectionsOut(w: Web, texts: seq<nat>, d: nat): seq<Event>
    decreases d, 3, |texts|
  {
    if texts == [] then [] else SectionOut(w, texts[0], d) + SectionsOut(w, texts[1..], d)
  }

  // ---------- the expansion says so ----------

  // Items of a text, where there are so many section names; only what comes first may be the
  // number of a section, which every text but a macro begins with.
  ghost predicate Scannable(items: seq<Item>, names: nat, o: Owner) {
    && (forall k :: 0 <= k < |items| ==> WellItem(items[k]) && (items[k].SectionName? ==> items[k].n < names))
    && (o == Macro || (items != [] && items[0].SectionNumber?))
    && (forall k :: 0 <= k < |items| && (o == Macro || k > 0) ==> !items[k].SectionNumber?)
  }

  // The program p is that of the web.
  ghost predicate Tells(w: Web, p: Program) {
    && p.Valid() && |w.items| == |p.texts| == |w.history| + 1 && Ordered(p.link, p.equiv, w.history)
    && forall t :: 1 <= t < |p.texts| ==> Told(w, p, t)
  }

  ghost predicate Told(w: Web, p: Program, t: nat)
    requires 1 <= t < |p.texts| && |w.items| == |p.texts| == |w.history| + 1
  {
    p.texts[t] == Flatten(w.items[t]) && Scannable(w.items[t], |p.equiv|, w.history[t - 1])
  }

  // ---------- a code and what comes after it ----------

  // The trace x is that of code c and then y.
  ghost predicate Leads(p: Program, c: Code, d: nat, x: Trace, y: Trace)
    requires p.Valid()
  {
    p.Refers(c) && x == Taken(p, c, d, y)
  }

  lemma SimpleSays(p: Program, c: Code, d: nat, x: Trace, y: Trace)
    requires p.Valid() && Leads(p, c, d, x, y) && x.done && !Reference(c)
    ensures y.done && Visible(x.events) == Visible([Simple(c)]) + Visible(y.events)
  {
    TakenDone(p, c, d, y);
    VisibleAppend([Simple(c)], y.events);
  }

  // A section name that has no texts.
  lemma NoTextSays(p: Program, n: nat, d: nat, x: Trace, y: Trace)
    requires p.Valid() && n < NAMES - 1 && n < |p.equiv| && p.equiv[n] == 0
    requires Leads(p, Pair(NAMES + n), d, x, y) && x.done
    ensures y.done && Visible(x.events) == (if n == 0 then [] else [NotPresent(n)]) + Visible(y.events)
  {
    var e := if n == 0 then Quiet else NotPresent(n);
    TakenReference(p, Pair(NAMES + n), d, 0, y);
    assert x == Emit(e, y);
    VisibleAppend([e], y.events);
  }

  // One that has texts.
  lemma NameSays(p: Program, n: nat, d: nat, x: Trace, y: Trace)
    requires p.Valid() && n < NAMES - 1 && n < |p.equiv| && p.equiv[n] != 0
    requires Leads(p, Pair(NAMES + n), d, x, y) && x.done
    ensures y.done && d > 0 && Expand(p, p.equiv[n], 0, 0, d - 1).done
    ensures Visible(x.events) == Visible(Expand(p, p.equiv[n], 0, 0, d - 1).events) + Visible(y.events)
  {
    TakenReference(p, Pair(NAMES + n), d, 0, y);
    assert d > 0;
    ReferIs(p, n, d, y);
    InnerSays(x, Expand(p, p.equiv[n], 0, 0, d - 1), y);
  }

  lemma ReferIs(p: Program, n: nat, d: nat, y: Trace)
    requires p.Valid() && n < |p.equiv| && p.equiv[n] != 0 && d > 0
    ensures Refer(p, n, d, y) == Emit(Quiet, Then(Expand(p, p.equiv[n], 0, 0, d - 1), y))
  {
  }

  lemma InnerSays(x: Trace, inner: Trace, y: Trace)
    requires x == Emit(Quiet, Then(inner, y)) && x.done
    ensures inner.done && y.done && Visible(x.events) == Visible(inner.events) + Visible(y.events)
  {
    VisibleAppend(inner.events, y.events);
  }

  // The traces of a text from each of its codes on, as long as the section stays the same.
  ghost predicate Traced(p: Program, codes: seq<Code>, d: nat, xs: seq<Trace>, k: nat)
    requires p.Valid()
  {
    |xs| == |codes| + 1 && forall j :: k <= j < |codes| ==> Leads(p, codes[j], d, xs[j], xs[j + 1])
  }

  // Characters one after the other.
  lemma {:induction false} BytesSay(p: Program, codes: seq<Code>, d: nat, xs: seq<Trace>, k: nat, text: seq<nat>)
    requires p.Valid() && Traced(p, codes, d, xs, k) && k + |text| <= |codes| && xs[k].done
    requires forall j :: 0 <= j < |text| ==> codes[k + j] == Plain(text[j])
    ensures xs[k + |text|].done
    ensures Visible(xs[k].events) == Bytewise(text) + Visible(xs[k + |text|].events)
    decreases |text|
  {
    if text != [] {
      var rest := text[1..];
      assert codes[k + 0] == Plain(text[0]);
      forall j | 0 <= j < |rest|
        ensures codes[k + 1 + j] == Plain(rest[j])
      {
        assert codes[k + (j + 1)] == Plain(text[j + 1]);
      }
      SimpleSays(p, codes[k], d, xs[k], xs[k + 1]);
      BytesSay(p, codes, d, xs, k + 1, rest);
      OneByte(text, Visible(xs[k + |text|].events));
    }
  }

  lemma OneByte(text: seq<nat>, rest: seq<Event>)
    requires text != []
    ensures Visible([Byte(text[0])]) + (Bytewise(text[1..]) + rest) == Bytewise(text) + rest
  {
    assert Visible([Byte(text[0])]) == [Byte(text[0])] + Visible([Byte(text[0])][1..]);
    assert Bytewise(text) == [Byte(text[0])] + Bytewise(text[1..]);
    Associative([Byte(text[0])], Bytewise(text[1..]), rest);
  }

  // Item i stands at k, in n codes.
  ghost predicate StandsAt(codes: seq<Code>, k: nat, i: Item, n: nat) {
    k + n <= |codes| && codes[k..k + n] == CodesOf(i)
  }

  // An item other than a section name or number.
  lemma ItemSays(p: Program, codes: seq<Code>, d: nat, xs: seq<Trace>, k: nat, i: Item, n: nat)
    requires p.Valid() && Traced(p, codes, d, xs, k) && StandsAt(codes, k, i, n) && xs[k].done
    requires WellItem(i) && !i.SectionName?
    ensures xs[k + n].done && Visible(xs[k].events) == Said(i) + Visible(xs[k + n].events)
  {
    if i.Literal? {
      LiteralSays(p, codes, d, xs, k, i.delimiter, i.text);
    } else {
      assert codes[k..k + 1][0] == codes[k];
      OneCode(i);
      SimpleSays(p, codes[k], d, xs[k], xs[k + 1]);
    }
  }

  lemma OneCode(i: Item)
    requires WellItem(i) && !i.SectionName? && !i.Literal?
    ensures |CodesOf(i)| == 1
    ensures !Reference(CodesOf(i)[0]) && Visible([Simple(CodesOf(i)[0])]) == Said(i)
  {
    var e := Simple(CodesOf(i)[0]);
    assert Visible([e]) == [e] + Visible([e][1..]);
  }

  lemma LiteralSays(p: Program, codes: seq<Code>, d: nat, xs: seq<Trace>, k: nat, q: nat, text: seq<nat>)
    requires p.Valid() && Traced(p, codes, d, xs, k) && StandsAt(codes, k, Literal(q, text), |text| + 2)
    requires xs[k].done
    ensures var n := |text| + 2;
            xs[k + n].done && Visible(xs[k].events) == Said(Literal(q, text)) + Visible(xs[k + n].events)
  {
    var all := [q] + text + [q];
    var cs := CodesOf(Literal(q, text));
    forall j | 0 <= j < |all|
      ensures codes[k + j] == Plain(all[j])
    {
      assert codes[k..k + |all|][j] == cs[j];
    }
    BytesSay(p, codes, d, xs, k, all);
    assert Bytewise(all) == Said(Literal(q, text));
  }

  // ---------- items one after the other ----------

  lemma FlattenFirst(codes: seq<Code>, k: nat, items: seq<Item>) returns (n: nat)
    requires items != [] && k <= |codes| && codes[k..] == Flatten(items)
    ensures StandsAt(codes, k, items[0], n) && codes[k + n..] == Flatten(items[1..])
  {
    n := |CodesOf(items[0])|;
    SliceFirst(codes, k, CodesOf(items[0]), Flatten(items[1..]));
  }

  lemma SliceFirst<T>(s: seq<T>, k: nat, x: seq<T>, y: seq<T>)
    requires k <= |s| && s[k..] == x + y
    ensures k + |x| <= |s| && s[k..k + |x|] == x && s[k + |x|..] == y
  {
    assert |s| == k + |x| + |y|;
    assert s[k..][..|x|] == s[k..k + |x|] && s[k..][|x|..] == s[k + |x|..];
  }

  // Items without a section number, one by one.
  ghost predicate Sayable(items: seq<Item>, names: nat) {
    items != [] ==>
      && WellItem(items[0]) && !items[0].SectionNumber? && (items[0].SectionName? ==> items[0].n < names)
      && Sayable(items[1..], names)
  }

  lemma {:induction false} ScannableIsSayable(items: seq<Item>, names: nat)
    requires Scannable(items, names, Macro)
    ensures Sayable(items, names)
  {
    if items != [] {
      assert forall k :: 0 <= k < |items| - 1 ==> items[1..][k] == items[k + 1];
      ScannableIsSayable(items[1..], names);
    }
  }

  // Section name n puts out out, where there is room for d levels.
  ghost predicate NameSaid(p: Program, n: nat, d: nat, out: seq<Event>)
    requires p.Valid() && n < |p.equiv|
  {
    && (p.equiv[n] == 0 ==> out == if n == 0 then [] else [NotPresent(n)])
    && (p.equiv[n] != 0 && d > 0 && Expand(p, p.equiv[n], 0, 0, d - 1).done ==>
          Visible(Expand(p, p.equiv[n], 0, 0, d - 1).events) == out)
  }

  // So do all names, with d levels or fewer.
  ghost predicate NamesSaid(w: Web, p: Program, d: nat)
    requires p.Valid()
    decreases d
  {
    && (d > 0 ==> NamesSaid(w, p, d - 1))
    && forall n :: 0 <= n < |p.equiv| && n < NAMES - 1 ==> NameSaid(p, n, d, ItemOut(w, SectionName(n), d))
  }

  lemma NameOutIs(w: Web, n: nat, d: nat, texts: seq<nat>)
    requires texts == Listed(w.history, Named(n))
    ensures ItemOut(w, SectionName(n), d)
         == if texts == [] then (if n == 0 then [] else [NotPresent(n)])
            else if d == 0 then [] else SectionsOut(w, texts, d - 1)
  {
  }

  // The texts of a section name are those of its chain.
  lemma NamedTexts(w: Web, p: Program, n: nat)
    requires Tells(w, p) && n < |p.equiv|
    ensures Listed(w.history, Named(n)) == if p.equiv[n] == 0 then [] else Chain(p.link, p.equiv[n])
    ensures p.equiv[n] != 0 ==>
              1 <= p.equiv[n] < |p.texts| && p.link[p.equiv[n]] != 0 && Listed(w.history, Named(n)) != []
  {
    if n > 0 {
      assert Lists(p.link, p.equiv[n], w.history, Named(n));
    } else {
      NoneListed(w.history, Named(0));
    }
  }

  lemma {:induction false} NoneListed(history: seq<Owner>, o: Owner)
    requires forall i :: 0 <= i < |history| ==> history[i] != o
    ensures Listed(history, o) == []
  {
    if history != [] { NoneListed(history[..|history| - 1], o); }
  }

  lemma NameHead(w: Web, p: Program, n: nat, d: nat, x: Trace, y: Trace)
    requires p.Valid() && NamesSaid(w, p, d) && n < |p.equiv| && n < NAMES - 1
    requires Leads(p, Pair(NAMES + n), d, x, y) && x.done
    ensures y.done && Visible(x.events) == ItemOut(w, SectionName(n), d) + Visible(y.events)
  {
    assert NameSaid(p, n, d, ItemOut(w, SectionName(n), d));
    SaidOnce(p, n, d, ItemOut(w, SectionName(n), d), x, y);
  }

  lemma SaidOnce(p: Program, n: nat, d: nat, out: seq<Event>, x: Trace, y: Trace)
    requires p.Valid() && n < NAMES - 1 && n < |p.equiv| && NameSaid(p, n, d, out)
    requires Leads(p, Pair(NAMES + n), d, x, y) && x.done
    ensures y.done && Visible(x.events) == out + Visible(y.events)
  {
    if p.equiv[n] == 0 { NoTextSays(p, n, d, x, y); } else { NameSays(p, n, d, x, y); }
  }

  lemma HeadSays(w: Web, p: Program, codes: seq<Code>, d: nat, xs: seq<Trace>, k: nat, i: Item, n: nat)
    requires p.Valid() && NamesSaid(w, p, d)
    requires Traced(p, codes, d, xs, k) && StandsAt(codes, k, i, n) && xs[k].done
    requires WellItem(i) && (i.SectionName? ==> i.n < |p.equiv|)
    ensures xs[k + n].done && Visible(xs[k].events) == ItemOut(w, i, d) + Visible(xs[k + n].events)
  {
    if i.SectionName? {
      assert codes[k..k + 1][0] == codes[k];
      NameHead(w, p, i.n, d, xs[k], xs[k + 1]);
    } else {
      ItemSays(p, codes, d, xs, k, i, n);
    }
  }

  lemma FirstSays(w: Web, p: Program, codes: seq<Code>, d: nat, xs: seq<Trace>, k: nat, items: seq<Item>)
    returns (n: nat)
    requires p.Valid() && NamesSaid(w, p, d)
    requires Traced(p, codes, d, xs, k) && k <= |codes| && items != [] && codes[k..] == Flatten(items)
    requires Sayable(items, |p.equiv|) && xs[k].done
    ensures k + n <= |codes| && codes[k + n..] == Flatten(items[1..]) && Traced(p, codes, d, xs, k + n)
    ensures xs[k + n].done && Visible(xs[k].events) == ItemOut(w, items[0], d) + Visible(xs[k + n].events)
  {
    n := FlattenFirst(codes, k, items);
    HeadSays(w, p, codes, d, xs, k, items[0], n);
  }

  // From an item on, to the end of the text.
  lemma {:induction false} RestSays(w: Web, p: Program, codes: seq<Code>, d: nat, xs: seq<Trace>, k: nat,
                                    items: seq<Item>)
    requires p.Valid() && NamesSaid(w, p, d)
    requires Traced(p, codes, d, xs, k) && k <= |codes| && codes[k..] == Flatten(items)
    requires Sayable(items, |p.equiv|) && xs[k].done
    ensures xs[|codes|].done && Visible(xs[k].events) == ItemsOut(w, items, d) + Visible(xs[|codes|].events)
    decreases |items|
  {
    if items != [] {
      var n := FirstSays(w, p, codes, d, xs, k, items);
      RestSays(w, p, codes, d, xs, k + n, items[1..]);
      Associative(ItemOut(w, items[0], d), ItemsOut(w, items[1..], d), Visible(xs[|codes|].events));
    } else {
      assert codes[k..] == [];
      assert k == |codes|;
    }
  }

  // The codes of a text of a chain, and what they say up to the end.
  lemma CodesSay(w: Web, p: Program, t: nat, s: nat, d: nat, x: Trace, xs: seq<Trace>)
    requires p.Valid() && NamesSaid(w, p, d) && t < |p.texts| && t < |w.items|
    requires w.items[t] != [] && p.texts[t] != [] && p.texts[t][0] == Pair(SECTIONS + s) && s > 0
    requires p.texts[t][1..] == Flatten(w.items[t][1..]) && Sayable(w.items[t][1..], |p.equiv|)
    requires Traced(p, p.texts[t], d, xs, 1) && Leads(p, p.texts[t][0], d, x, xs[1]) && x.done
    ensures xs[|p.texts[t]|].done
    ensures Visible(x.events)
         == [Open(s)] + (ItemsOut(w, w.items[t][1..], d) + Visible(xs[|p.texts[t]|].events))
  {
    SimpleSays(p, p.texts[t][0], d, x, xs[1]);
    assert Visible([Open(s)]) == [Open(s)] + Visible([Open(s)][1..]);
    RestSays(w, p, p.texts[t], d, xs, 1, w.items[t][1..]);
  }

  // The section that text t is of.
  function SectionOf(w: Web, t: nat): nat {
    if t < |w.items| && w.items[t] != [] && w.items[t][0].SectionNumber? then w.items[t][0].n else 0
  }

  lemma ChainText(w: Web, p: Program, t: nat)
    requires Tells(w, p) && 1 <= t < |p.texts| && p.link[t] != 0
    ensures var items, codes := w.items[t], p.texts[t];
            && items != [] && items[0].SectionNumber? && SectionOf(w, t) > 0
            && codes != [] && codes[0] == Pair(SECTIONS + SectionOf(w, t)) && codes[1..] == Flatten(items[1..])
            && Sayable(items[1..], |p.equiv|)
            && forall k :: 1 <= k < |codes| ==> !IsNumber(codes[k])
  {
    assert w.history[t - 1] != Macro && Told(w, p, t);
    NumberFirst(p.texts[t], w.items[t], |p.equiv|);
  }

  // A whole text, from its section number to its end.
  lemma TextSays(w: Web, p: Program, t: nat, d: nat, section: nat)
    requires Tells(w, p) && NamesSaid(w, p, d)
    requires 1 <= t < |p.texts| && p.link[t] != 0 && Expand(p, t, 0, section, d).done
    ensures p.link[t] < SECTION_FLAG ==> t < p.link[t] < |p.texts| && p.link[p.link[t]] != 0
    ensures var s := SectionOf(w, t);
            && (p.link[t] < SECTION_FLAG ==> Expand(p, p.link[t], 0, s, d).done)
            && Visible(Expand(p, t, 0, section, d).events)
               == SectionOut(w, t, d)
                  + if p.link[t] < SECTION_FLAG then Visible(Expand(p, p.link[t], 0, s, d).events) else []
  {
    ChainText(w, p, t);
    var s := SectionOf(w, t);
    var xs := TextTraces(p, t, s, d);
    FirstTrace(p, t, s, section, d);
    CodesSay(w, p, t, s, d, Expand(p, t, 0, section, d), xs);
    EndSays(p, t, s, d);
    Arranged(Open(s), ItemsOut(w, w.items[t][1..], d), Close(s),
             if p.link[t] < SECTION_FLAG then Visible(Expand(p, p.link[t], 0, s, d).events) else []);
  }

  lemma FirstTrace(p: Program, t: nat, s: nat, section: nat, d: nat)
    requires p.Valid() && t < |p.texts| && p.link[t] != 0 && p.texts[t] != [] && p.texts[t][0] == Pair(SECTIONS + s)
    requires s > 0
    ensures Leads(p, p.texts[t][0], d, Expand(p, t, 0, section, d), Expand(p, t, 1, s, d))
  {
    assert p.TextOk(t);
  }

  lemma NumberFirst(codes: seq<Code>, items: seq<Item>, names: nat)
    requires items != [] && items[0].SectionNumber? && codes == Flatten(items) && WellItem(items[0])
    requires forall k :: 0 <= k < |items| ==> WellItem(items[k]) && (items[k].SectionName? ==> items[k].n < names)
    requires forall k :: 1 <= k < |items| ==> !items[k].SectionNumber?
    ensures codes != [] && codes[0] == Pair(SECTIONS + items[0].n) && codes[1..] == Flatten(items[1..])
    ensures Sayable(items[1..], names) && forall k :: 1 <= k < |codes| ==> !IsNumber(codes[k])
  {
    assert codes[0..] == codes;
    var n := FlattenFirst(codes, 0, items);
    assert codes[0..1][0] == codes[0];
    ScannableIsSayable(items[1..], names);
    NoNumbers(items[1..], names);
    assert forall k :: 1 <= k < |codes| ==> codes[k] == codes[1..][k - 1];
  }

  lemma {:induction false} NoNumbers(items: seq<Item>, names: nat)
    requires Sayable(items, names)
    ensures forall k :: 0 <= k < |Flatten(items)| ==> !IsNumber(Flatten(items)[k])
  {
    if items != [] {
      NoNumbers(items[1..], names);
      var cs := CodesOf(items[0]);
      assert forall k :: 0 <= k < |cs| ==> !IsNumber(cs[k]);
    }
  }

  // The traces from every code on, in section s.
  lemma TextTraces(p: Program, t: nat, s: nat, d: nat) returns (xs: seq<Trace>)
    requires p.Valid() && t < |p.texts| && p.link[t] != 0
    requires forall k :: 1 <= k < |p.texts[t]| ==> !IsNumber(p.texts[t][k])
    ensures Traced(p, p.texts[t], d, xs, 1)
    ensures forall k :: 0 <= k < |xs| ==> xs[k] == Expand(p, t, k, s, d)
  {
    var codes := p.texts[t];
    assert p.TextOk(t);
    xs := seq(|codes| + 1, k requires 0 <= k <= |codes| => Expand(p, t, k, s, d));
    forall k | 1 <= k < |codes|
      ensures Leads(p, codes[k], d, xs[k], xs[k + 1])
    {
      assert Current(codes[k], s) == s;
    }
  }

  // A text and those that its chain goes on to.
  lemma {:induction false} ChainSays(w: Web, p: Program, t: nat, d: nat, section: nat)
    requires Tells(w, p) && NamesSaid(w, p, d)
    requires 1 <= t < |p.texts| && p.link[t] != 0 && Expand(p, t, 0, section, d).done
    ensures Visible(Expand(p, t, 0, section, d).events) == SectionsOut(w, Chain(p.link, t), d)
    decreases |p.texts| - t
  {
    TextSays(w, p, t, d, section);
    var more := if p.link[t] < SECTION_FLAG then Chain(p.link, p.link[t]) else [];
    if p.link[t] < SECTION_FLAG { ChainSays(w, p, p.link[t], d, SectionOf(w, t)); }
    assert Chain(p.link, t) == [t] + more;
    assert Chain(p.link, t)[1..] == more;
  }

  // Every section name says what its texts do, whatever room there is.
  lemma {:induction false} AllNamesSaid(w: Web, p: Program, d: nat)
    requires Tells(w, p)
    ensures NamesSaid(w, p, d)
    decreases d
  {
    if d > 0 { AllNamesSaid(w, p, d - 1); }
    forall n | 0 <= n < |p.equiv| && n < NAMES - 1
      ensures NameSaid(p, n, d, ItemOut(w, SectionName(n), d))
    {
      NamedTexts(w, p, n);
      NameOutIs(w, n, d, Listed(w.history, Named(n)));
      OneNameSaid(w, p, n, d, Listed(w.history, Named(n)), ItemOut(w, SectionName(n), d));
    }
  }

  lemma OneNameSaid(w: Web, p: Program, n: nat, d: nat, texts: seq<nat>, out: seq<Event>)
    requires Tells(w, p) && (d > 0 ==> NamesSaid(w, p, d - 1)) && n < NAMES - 1 && n < |p.equiv|
    requires texts == if p.equiv[n] == 0 then [] else Chain(p.link, p.equiv[n])
    requires p.equiv[n] != 0 ==> 1 <= p.equiv[n] < |p.texts| && p.link[p.equiv[n]] != 0 && texts != []
    requires out == if texts == [] then (if n == 0 then [] else [NotPresent(n)])
                    else if d == 0 then [] else SectionsOut(w, texts, d - 1)
    ensures NameSaid(p, n, d, out)
  {
    if p.equiv[n] != 0 && d > 0 && Expand(p, p.equiv[n], 0, 0, d - 1).done {
      ChainSays(w, p, p.equiv[n], d - 1, 0);
    }
  }

  // The program put out is what its unnamed texts say, one after the other.
  lemma ProgramSays(w: Web, p: Program, d: nat)
    requires Tells(w, p) && p.link[0] != 0
    ensures p.link[0] < |p.texts| && p.link[p.link[0]] != 0
    ensures var x := Expand(p, p.link[0], 0, 0, d);
            x.done ==> Visible(x.events) == SectionsOut(w, Listed(w.history, Unnamed), d)
  {
    assert p.TextOk(0);
    AllNamesSaid(w, p, d);
    if Expand(p, p.link[0], 0, 0, d).done { ChainSays(w, p, p.link[0], d, 0); }
  }

  lemma Arranged(o: Event, x: seq<Event>, c: Event, y: seq<Event>)
    ensures [o] + (x + ([c] + y)) == ([o] + x + [c]) + y
  {
  }

  // The end of a text.
  lemma EndSays(p: Program, t: nat, section: nat, d: nat)
    requires p.Valid() && t < |p.texts| && p.link[t] != 0 && section != 0
    requires Expand(p, t, |p.texts[t]|, section, d).done
    ensures p.link[t] < SECTION_FLAG ==> p.link[t] < |p.texts| && p.link[p.link[t]] != 0
    ensures p.link[t] < SECTION_FLAG ==> Expand(p, p.link[t], 0, section, d).done
    ensures Visible(Expand(p, t, |p.texts[t]|, section, d).events)
         == [Close(section)]
            + if p.link[t] < SECTION_FLAG then Visible(Expand(p, p.link[t], 0, section, d).events) else []
  {
    assert p.TextOk(t);
    var rest := if p.link[t] < SECTION_FLAG then Expand(p, p.link[t], 0, section, d) else NIL;
    assert Expand(p, t, |p.texts[t]|, section, d) == Emit(Close(section), rest);
    VisibleAppend([Close(section)], rest.events);
  }
}
