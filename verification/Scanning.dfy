// CTANGLE from the items of its replacement texts to what it puts out: texts are laid down and
// chained as they are scanned, and then expanded.
module Scanning {
  import opened Wrappers
  import opened Codes
  import opened Items
  import opened TokenStore
  import opened Expansion
  import opened TextChains
  import opened Tangler
  import opened Listing

  // ---------- what is scanned ----------

  ghost predicate Inert(c: Code, names: nat) {
    !IsNumber(c) && (Reference(c) ==> c.a - NAMES < names)
  }

  // What that makes of its codes.
  ghost predicate TextOk(codes: seq<Code>, names: nat, o: Owner) {
    && WellFormed(codes)
    && (o != Macro ==> codes != [] && IsNumber(codes[0]))
    && (forall k :: 0 <= k < |codes| && (o == Macro || k > 0) ==> Inert(codes[k], names))
  }

  lemma {:induction false} FlattenInert(items: seq<Item>, names: nat)
    requires forall k :: 0 <= k < |items| ==> WellItem(items[k]) && (items[k].SectionName? ==> items[k].n < names)
    requires forall k :: 0 <= k < |items| ==> !items[k].SectionNumber?
    ensures forall k :: 0 <= k < |Flatten(items)| ==> Inert(Flatten(items)[k], names)
  {
    if items != [] {
      FlattenInert(items[1..], names);
      var codes := CodesOf(items[0]);
      assert forall k :: 0 <= k < |codes| ==> Inert(codes[k], names);
    }
  }

  lemma ScannedOk(items: seq<Item>, names: nat, o: Owner)
    requires Scannable(items, names, o)
    ensures TextOk(Flatten(items), names, o)
  {
    FlattenWellFormed(items);
    if o == Macro {
      FlattenInert(items, names);
    } else {
      FlattenInert(items[1..], names);
      assert CodesOf(items[0]) == [Pair(SECTIONS + items[0].n)];
    }
  }

  // A section's text is its number and then what else would do for a macro.
  lemma NumberBefore(s: nat, items: seq<Item>, names: nat, o: Owner)
    requires 1 <= s && SECTIONS + s < 0x8000 && o != Macro && Scannable(items, names, Macro)
    ensures var all := [SectionNumber(s)] + items;
            Scannable(all, names, o) && Flatten(all) == [Pair(SECTIONS + s)] + Flatten(items)
  {
    var all := [SectionNumber(s)] + items;
    assert all[1..] == items;
    WithNumber(all, items, names, o);
  }

  lemma WithNumber(all: seq<Item>, items: seq<Item>, names: nat, o: Owner)
    requires all != [] && all[1..] == items && all[0].SectionNumber? && WellItem(all[0]) && o != Macro
    requires Scannable(items, names, Macro)
    ensures Scannable(all, names, o)
  {
    forall k | 1 <= k < |all|
      ensures WellItem(all[k]) && (all[k].SectionName? ==> all[k].n < names) && !all[k].SectionNumber?
    {
      assert all[k] == items[k - 1];
    }
  }

  // ---------- how it lies in memory ----------

  ghost predicate TextIn(mem: seq<nat>, starts: seq<nat>, codes: seq<seq<Code>>, t: nat)
    requires t < |codes| < |starts|
  {
    starts[t] <= starts[t + 1] <= |mem| && mem[starts[t]..starts[t + 1]] == Encode(codes[t])
  }

  ghost predicate Laid(mem: seq<nat>, starts: seq<nat>, codes: seq<seq<Code>>) {
    && |starts| == |codes| + 1 && starts[|codes|] == |mem|
    && forall t :: 0 <= t < |codes| ==> TextIn(mem, starts, codes, t)
  }

  lemma LaidMore(mem: seq<nat>, starts: seq<nat>, codes: seq<seq<Code>>, c: seq<Code>)
    requires Laid(mem, starts, codes)
    ensures var m := mem + Encode(c); Laid(m, starts + [|m|], codes + [c])
  {
    var m := mem + Encode(c);
    var s, cs := starts + [|m|], codes + [c];
    forall t | 0 <= t < |cs|
      ensures TextIn(m, s, cs, t)
    {
      if t < |codes| {
        assert TextIn(mem, starts, codes, t);
        assert m[starts[t]..starts[t + 1]] == mem[starts[t]..starts[t + 1]];
      }
    }
  }

  lemma InMemory(mem: seq<nat>, end: nat, starts: seq<nat>, codes: seq<seq<Code>>, t: nat)
    requires end <= |mem| && Laid(mem[..end], starts, codes) && t < |codes|
    ensures var s := Encode(codes[t]);
            starts[t] + |s| == starts[t + 1] <= |mem| && forall j :: 0 <= j < |s| ==> mem[starts[t] + j] == s[j]
  {
    assert TextIn(mem[..end], starts, codes, t);
    var s := Encode(codes[t]);
    forall j | 0 <= j < |s|
      ensures mem[starts[t] + j] == s[j]
    {
      assert mem[..end][starts[t]..starts[t + 1]][j] == mem[starts[t] + j];
    }
  }

  // ---------- what the texts are ----------

  ghost predicate Scanned(codes: seq<seq<Code>>, items: seq<seq<Item>>, link: seq<nat>, equiv: seq<nat>,
                          history: seq<Owner>) {
    && |codes| == |items| == |link| == |history| + 1 && codes[0] == []
    && forall t :: 1 <= t < |codes| ==> ScannedAt(codes, items, |equiv|, history, t)
  }

  ghost predicate ScannedAt(codes: seq<seq<Code>>, items: seq<seq<Item>>, names: nat, history: seq<Owner>, t: nat)
    requires 1 <= t < |codes| == |items| == |history| + 1
  {
    && TextOk(codes[t], names, history[t - 1])
    && codes[t] == Flatten(items[t]) && Scannable(items[t], names, history[t - 1])
  }

  lemma ScannedMore(codes: seq<seq<Code>>, items: seq<seq<Item>>, link: seq<nat>, equiv: seq<nat>, history: seq<Owner>,
                    link': seq<nat>, equiv': seq<nat>, text: seq<Item>, o: Owner)
    requires Scanned(codes, items, link, equiv, history) && |equiv'| == |equiv| && Scannable(text, |equiv|, o)
    requires TextOk(Flatten(text), |equiv|, o)
    ensures |link'| == |link| + 1 ==> Scanned(codes + [Flatten(text)], items + [text], link', equiv', history + [o])
  {
    var cs, ts, os := codes + [Flatten(text)], items + [text], history + [o];
    forall t | 1 <= t < |cs|
      ensures ScannedAt(cs, ts, |equiv'|, os, t)
    {
      if t < |codes| { assert ScannedAt(codes, items, |equiv|, history, t); }
    }
  }

  // Texts scanned and chained make a program, each text of a chain beginning with its number.
  lemma ScannedProgram(codes: seq<seq<Code>>, items: seq<seq<Item>>, link: seq<nat>, equiv: seq<nat>,
                       history: seq<Owner>)
    requires Ordered(link, equiv, history) && Scanned(codes, items, link, equiv, history)
    ensures var p := Program(codes, link, equiv); p.Valid() && Numbered(p) && Tells(Web(items, history), p)
  {
    var p := Program(codes, link, equiv);
    forall t, k | 0 <= t < |codes| && 0 <= k < |codes[t]|
      ensures p.Refers(codes[t][k])
    {
      assert ScannedAt(codes, items, |equiv|, history, t);
      assert k > 0 ==> Inert(codes[t][k], |equiv|);
    }
    forall t | 0 <= t < |codes|
      ensures WellFormed(codes[t])
    {
      if t > 0 { assert ScannedAt(codes, items, |equiv|, history, t); }
    }
    DirectoryValid(codes, link, equiv, history);
    forall t | 0 <= t < |codes| && link[t] != 0 && t != 0
      ensures codes[t] != [] && IsNumber(codes[t][0]) && forall k :: 1 <= k < |codes[t]| ==> !IsNumber(codes[t][k])
    {
      assert history[t - 1] != Macro && ScannedAt(codes, items, |equiv|, history, t);
      assert forall k :: 1 <= k < |codes[t]| ==> Inert(codes[t][k], |equiv|);
    }
    forall t | 1 <= t < |codes|
      ensures Told(Web(items, history), p, t)
    {
      assert ScannedAt(codes, items, |equiv|, history, t);
    }
  }

  // What is seen of a trace nests as the whole does.
  lemma {:induction false} NestVisible(events: seq<Event>, open: seq<nat>)
    ensures Nest(Visible(events), open) == Nest(events, open)
  {
    if events != [] {
      var o := Nested(events[0], open);
      if o.Some? { NestVisible(events[1..], o.value); }
      if events[0] != Quiet { assert ([events[0]] + Visible(events[1..]))[1..] == Visible(events[1..]); }
    }
  }

  // ---------- the program ----------

  class Tangle {
    const store: Store
    const texts: ReplacementTexts
    const tokStart: array<nat>
    ghost var codes: seq<seq<Code>>
    ghost var items: seq<seq<Item>>

    // Every text scanned so far is whole, laid down in memory and chained to its owner's.
    ghost predicate Valid()
      reads this, store, store.tokMem, texts, tokStart
    {
      && InPlace(codes) && texts.Valid()
      && Scanned(codes, items, texts.link, texts.equiv, texts.history)
    }

    // The texts with these codes fill the token memory.
    ghost predicate InPlace(codes: seq<seq<Code>>)
      reads store, store.tokMem, tokStart
    {
      && store.Valid() && |codes| < tokStart.Length && store.tokMem != tokStart
      && Laid(store.Contents(), tokStart[..|codes| + 1], codes)
    }

    ghost function Program(): Program
      reads this, texts
    { Expansion.Program(codes, texts.link, texts.equiv) }

    // What has been scanned.
    ghost function Scan(): Web
      reads this, texts
    { Web(items, texts.history) }

    constructor (tokMem: array<nat>, tokStart: array<nat>, names: nat)
      requires tokStart.Length > 1 && tokMem != tokStart
      modifies tokStart
      ensures Valid() && fresh(store) && fresh(texts) && store.tokMem == tokMem && this.tokStart == tokStart
      ensures codes == [[]] && Scan() == Web([[]], []) && |texts.equiv| == names
    {
      this.tokStart := tokStart;
      store := new Store(tokMem);
      texts := new ReplacementTexts(names);
      codes, items := [[]], [[]];
      new;
      tokStart[0] := 0;
      tokStart[1] := 0;
      assert TextIn(store.Contents(), tokStart[..2], codes, 0);
    }

    // scan_repl: the items of a text, and the end of it.
    method ScanRepl(items: seq<Item>) returns (ok: bool)
      requires Valid()
      modifies store, store.tokMem, tokStart
      ensures ok ==> InPlace(codes + [Flatten(items)])
      ensures ok <==> old(store.tokPtr) + |Encode(Flatten(items))| <= store.tokMem.Length
                      && |codes| + 1 < tokStart.Length
    {
      ghost var mem, starts := store.Contents(), tokStart[..|codes| + 1];
      ok := store.StoreItems(items);
      if !ok { return; }
      if |texts.link| + 1 == tokStart.Length { return false; }
      tokStart[|texts.link| + 1] := store.tokPtr;
      LaidMore(mem, starts, codes, Flatten(items));
      assert tokStart[..|codes| + 2] == starts + [store.tokPtr];
    }

    // A text of owner o: laid down, ended, and chained to the owner's others.
    method AddText(o: Owner, text: seq<Item>) returns (ok: bool)
      requires Valid() && Scannable(text, |texts.equiv|, o) && (o.Named? ==> 1 <= o.n < |texts.equiv|)
      modifies this`codes, this`items, store, store.tokMem, texts, tokStart
      ensures ok ==> Valid() && codes == old(codes) + [Flatten(text)] && |texts.equiv| == old(|texts.equiv|)
      ensures ok ==> Scan() == Web(old(items) + [text], old(texts.history) + [o])
      ensures ok <==> old(store.tokPtr) + |Encode(Flatten(text))| <= store.tokMem.Length
                      && old(|codes|) + 1 < tokStart.Length && old(|codes|) < SECTION_FLAG
    {
      ok := ScanRepl(text);
      if ok { ok := Keep(o, text); }
    }

    // The text just laid down, entered as one of owner o.
    method Keep(o: Owner, ghost text: seq<Item>) returns (ok: bool)
      requires InPlace(codes + [Flatten(text)]) && texts.Valid() && (o.Named? ==> 1 <= o.n < |texts.equiv|)
      requires Scanned(codes, items, texts.link, texts.equiv, texts.history) && Scannable(text, |texts.equiv|, o)
      modifies this`codes, this`items, texts
      ensures ok ==> Valid() && codes == old(codes) + [Flatten(text)] && |texts.equiv| == old(|texts.equiv|)
      ensures ok ==> Scan() == Web(old(items) + [text], old(texts.history) + [o])
      ensures ok <==> old(|codes|) < SECTION_FLAG
    {
      ok := Chain(o, text);
      codes, items := codes + [Flatten(text)], items + [text];
    }

    // The end of scan_section: where the text belongs.
    method Chain(o: Owner, ghost text: seq<Item>) returns (ok: bool)
      requires texts.Valid() && (o.Named? ==> 1 <= o.n < |texts.equiv|)
      requires Scanned(codes, items, texts.link, texts.equiv, texts.history) && Scannable(text, |texts.equiv|, o)
      modifies texts
      ensures ok ==> Scanned(codes + [Flatten(text)], items + [text], texts.link, texts.equiv, texts.history)
      ensures texts.Valid() && |texts.equiv| == old(|texts.equiv|) && ok == (old(|texts.link|) < SECTION_FLAG)
      ensures texts.history == if ok then old(texts.history) + [o] else old(texts.history)
    {
      ghost var link, equiv, history := texts.link, texts.equiv, texts.history;
      ScannedOk(text, |equiv|, o);
      match o {
        case Macro => ok := texts.AddMacro();
        case Unnamed => ok := texts.AddUnnamed();
        case Named(n) => ok := texts.AddNamed(n);
      }
      ScannedMore(codes, items, link, equiv, history, texts.link, texts.equiv, text, o);
    }

    // scan_section: the text of section s, under name n or, without one, in the program itself.
    method AddSection(s: nat, name: Option<nat>, text: seq<Item>) returns (ok: bool)
      requires Valid() && 1 <= s && SECTIONS + s < 0x8000
      requires name.Some? ==> 1 <= name.value < |texts.equiv|
      requires Scannable(text, |texts.equiv|, Macro)
      modifies this`codes, this`items, store, store.tokMem, texts, tokStart
      ensures ok ==> Valid() && |texts.equiv| == old(|texts.equiv|)
      ensures ok ==> codes == old(codes) + [[Pair(SECTIONS + s)] + Flatten(text)]
      ensures ok ==> Scan() == Web(old(items) + [[SectionNumber(s)] + text],
                                   old(texts.history) + [if name.Some? then Named(name.value) else Unnamed])
    {
      var o := if name.Some? then Named(name.value) else Unnamed;
      NumberBefore(s, text, |texts.equiv|, o);
      ok := AddText(o, [SectionNumber(s)] + text);
    }

    // Phase two: the program put out from the beginning of its unnamed text.  It comes to its
    // end exactly if no section names are nested too deep; it is then what the unnamed texts
    // say, item by item, with the texts of section names in their places, and properly nested.
    method PutOut() returns (ok: bool, out: seq<Event>)
      requires Valid()
      ensures Program().Valid()
      ensures texts.link[0] == 0 ==> ok && out == []
      ensures texts.link[0] != 0 ==>
                && texts.link[0] < |codes| && texts.link[texts.link[0]] != 0
                && out == Visible(Expand(Program(), texts.link[0], 0, 0, STACK_SIZE - 1).events)
                && (ok <==> !Overfull(Program(), texts.link[0], 0, STACK_SIZE - 1))
      ensures ok ==> out == SectionsOut(Scan(), Listed(texts.history, Unnamed), STACK_SIZE - 1)
      ensures ok ==> Nest(out, []) == Some([])
    {
      ScannedProgram(codes, items, texts.link, texts.equiv, texts.history);
      var t := texts.link[0];
      if t == 0 { return true, []; }
      ProgramSays(Scan(), Program(), STACK_SIZE - 1);
      assert Program().TextOk(0);
      var expander := new Expander(Program(), store.tokMem, tokStart, texts.link, texts.equiv);
      LoadedHere(expander);
      ok, out := expander.Output(t);
      DoneExactly(Program(), t);
      NestedOut(Program(), t);
    }

    lemma LoadedHere(e: Expander)
      requires Valid() && Program().Valid() && e.program == Program() && e.tokMem == store.tokMem
      requires e.tokStart == tokStart && e.textLink == texts.link && e.equiv == texts.equiv
      ensures e.Loaded()
    {
      forall t | 0 <= t < |codes|
        ensures e.Stored(t)
      {
        InMemory(store.tokMem[..], store.tokPtr, tokStart[..|codes| + 1], codes, t);
      }
    }
  }

  lemma NestedOut(p: Program, t: nat)
    requires p.Valid() && Numbered(p) && 1 <= t < |p.texts| && p.link[t] != 0
    ensures var x := Expand(p, t, 0, 0, STACK_SIZE - 1);
            x.done ==> Nest(Visible(x.events), []) == Some([])
  {
    ExpansionNests(p, t, 0, 0, STACK_SIZE - 1, []);
    NestVisible(Expand(p, t, 0, 0, STACK_SIZE - 1).events, []);
  }
}
