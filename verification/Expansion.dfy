// What a program text expands to: section names replaced by their texts, recursively.
module Expansion {
  import opened Wrappers
  import opened Codes

  const SECTION_FLAG: nat := 2500     // section_flag, which is max_texts
  const STACK_SIZE: nat := 50

  // Text t goes on in text link[t] if that is below SECTION_FLAG; texts with link 0 are
  // macros.  Text 0 stands for the beginning of the unnamed chain, and equiv[n] for the
  // first text of section name n, 0 if it has none.
  datatype Program = Program(texts: seq<seq<Code>>, link: seq<nat>, equiv: seq<nat>)
  {
    ghost predicate Valid() {
      && 1 <= |texts| == |link| <= SECTION_FLAG
      && (forall t :: 0 <= t < |texts| ==> TextOk(t))
      && (forall n :: 0 <= n < |equiv| ==> equiv[n] < |texts| && (equiv[n] != 0 ==> link[equiv[n]] != 0))
    }

    ghost predicate TextOk(t: nat)
      requires t < |texts| == |link|
    {
      WellFormed(texts[t]) && LinkOk(t) && forall k :: 0 <= k < |texts[t]| ==> Refers(texts[t][k])
    }


    // Chains lead onward and do not run into macros.
    predicate LinkOk(t: nat)
      requires t < |texts| == |link|
    {
      link[t] == 0 || link[t] == SECTION_FLAG || (t < link[t] < |texts| && link[link[t]] != 0)
    }

    predicate Refers(c: Code) { c.Pair? && NAMES <= c.a < DEFS_FLAG ==> c.a - NAMES < |equiv| }
  }

  // One step of the expansion: something put out, or Quiet for a step that puts nothing out.
  datatype Event =
    | Quiet
    | Byte(b: nat)
    | Name(n: nat)
    | Open(section: nat)
    | Close(section: nat)
    | LineInfo(number: nat, file: nat)
    | Defs
    | NotPresent(n: nat)

  // The steps, and whether they come to an end within the depth allowed.
  datatype Trace = Trace(events: seq<Event>, done: bool)

  const NIL := Trace([], true)
  const OVERFLOW := Trace([], false)

  function Emit(e: Event, rest: Trace): Trace { Trace([e] + rest.events, rest.done) }

  function Then(a: Trace, b: Trace): Trace {
    if a.done then Trace(a.events + b.events, b.done) else a
  }

  lemma ThenEmit(e: Event, a: Trace, b: Trace)
    ensures Then(Emit(e, a), b) == Emit(e, Then(a, b))
  {
    assert [e] + a.events + b.events == [e] + (a.events + b.events);
  }

  lemma ThenThen(a: Trace, b: Trace, c: Trace)
    ensures Then(Then(a, b), c) == Then(a, Then(b, c))
  {
    Associative(a.events, b.events, c.events);
  }

  lemma ThenNil(a: Trace)
    ensures Then(NIL, a) == a
  {
    assert [] + a.events == a.events;
  }

  // ---------- recursive substitution ----------

  // The event of a code that is not a reference to a section.
  function Simple(c: Code): Event
    requires !Reference(c)
  {
    match c
    case Plain(b) => Byte(b)
    case Line(n, f) => LineInfo(n, f)
    case Pair(a) =>
      if a < NAMES then Name(a) else if a == DEFS_FLAG then Defs
      else if a > SECTIONS then Open(a - SECTIONS) else Quiet
  }

  predicate Reference(c: Code) { c.Pair? && NAMES <= c.a < DEFS_FLAG }

  function Current(c: Code, section: nat): nat {
    if c.Pair? && c.a > SECTIONS then c.a - SECTIONS else section
  }

  // From code k of text t to the end of its chain, in section number section, with room
  // for d more levels.
  function Expand(p: Program, t: nat, k: nat, section: nat, d: nat): Trace
    requires p.Valid() && t < |p.texts| && p.link[t] != 0 && k <= |p.texts[t]|
    decreases d, |p.texts| - t, |p.texts[t]| - k
  {
    assert p.TextOk(t);
    if k == |p.texts[t]| then
      Emit(if section == 0 then Quiet else Close(section),
           if p.link[t] < SECTION_FLAG then Expand(p, p.link[t], 0, section, d) else NIL)
    else
      var c := p.texts[t][k];
      Taken(p, c, d, Expand(p, t, k + 1, Current(c, section), d))
  }

  // One code, and then the rest; the macros need a level for themselves.
  function Taken(p: Program, c: Code, d: nat, rest: Trace): Trace
    requires p.Valid() && p.Refers(c)
    decreases d, 0, 1
  {
    if Reference(c) then Refer(p, c.a - NAMES, d, rest)
    else if c == Pair(DEFS_FLAG) && d == 0 then OVERFLOW
    else Emit(Simple(c), rest)
  }

  // The chain of section name n, a level deeper, and then the rest.
  function Refer(p: Program, n: nat, d: nat, rest: Trace): Trace
    requires p.Valid() && n < |p.equiv|
    decreases d, 0, 0
  {
    if p.equiv[n] == 0 then Emit(if n == 0 then Quiet else NotPresent(n), rest)
    else if d == 0 then OVERFLOW
    else Emit(Quiet, Then(Expand(p, p.equiv[n], 0, 0, d - 1), rest))
  }

  // What is seen of a trace.
  function Visible(events: seq<Event>): seq<Event> {
    if events == [] then []
    else if events[0] == Quiet then Visible(events[1..])
    else [events[0]] + Visible(events[1..])
  }

  lemma {:induction false} VisibleAppend(x: seq<Event>, y: seq<Event>)
    ensures Visible(x + y) == Visible(x) + Visible(y)
  {
    if x == [] {
      assert x + y == y;
    } else {
      VisibleAppend(x[1..], y);
      assert (x + y)[1..] == x[1..] + y && (x + y)[0] == x[0];
      Associative([x[0]], Visible(x[1..]), Visible(y));
    }
  }

  // ---------- section comments are properly nested ----------

  // The sections open after an event, those in open being open before; nothing if it
  // closes a section that is not the last one opened.
  function Nested(e: Event, open: seq<nat>): Option<seq<nat>> {
    match e
    case Open(n) => Some(open + [n])
    case Close(n) => if open == [] || open[|open| - 1] != n then None else Some(open[..|open| - 1])
    case _ => Some(open)
  }

  function Nest(events: seq<Event>, open: seq<nat>): Option<seq<nat>>
    decreases |events|
  {
    if events == [] then Some(open)
    else
      var o := Nested(events[0], open);
      if o.None? then None else Nest(events[1..], o.value)
  }

  lemma {:induction false} NestAppend(x: seq<Event>, y: seq<Event>, open: seq<nat>)
    ensures var o := Nest(x, open);
            Nest(x + y, open) == if o.None? then None else Nest(y, o.value)
    decreases |x|
  {
    if x == [] {
      assert x + y == y;
    } else {
      assert (x + y)[1..] == x[1..] + y;
      var o := Nested(x[0], open);
      if o.Some? { NestAppend(x[1..], y, o.value); }
    }
  }

  // Every text of a chain begins with its section number, and has no other.
  ghost predicate Numbered(p: Program)
    requires p.Valid()
  {
    forall t :: 0 <= t < |p.texts| && p.link[t] != 0 && t != 0 ==>
      && p.texts[t] != [] && IsNumber(p.texts[t][0])
      && forall k :: 1 <= k < |p.texts[t]| ==> !IsNumber(p.texts[t][k])
  }

  predicate IsNumber(c: Code) { c.Pair? && c.a > SECTIONS }

  lemma NestEmit(e: Event, rest: Trace, open: seq<nat>)
    ensures var o := Nested(e, open);
            Nest(Emit(e, rest).events, open) == if o.None? then None else Nest(rest.events, o.value)
  {
    assert Emit(e, rest).events[1..] == rest.events;
  }

  lemma NestThen(a: Trace, b: Trace, open: seq<nat>, mid: seq<nat>)
    requires a.done && Nest(a.events, open) == Some(mid)
    ensures Nest(Then(a, b).events, open) == Nest(b.events, mid)
  {
    NestAppend(a.events, b.events, open);
  }

  // The trace closes what it opens: run with o open, it leaves open open.
  ghost predicate Nests(x: Trace, o: seq<nat>, open: seq<nat>) {
    x.done ==> Nest(x.events, o) == Some(open)
  }

  lemma NestClosed(section: nat, rest: Trace, open: seq<nat>)
    requires Nests(rest, open, open)
    ensures Nests(Emit(Close(section), rest), open + [section], open)
  {
    NestEmit(Close(section), rest, open + [section]);
    assert (open + [section])[..|open|] == open;
  }

  // Code k of a text of a chain; where the chain goes on.
  lemma InChain(p: Program, t: nat, k: nat)
    requires p.Valid() && Numbered(p) && 1 <= t < |p.texts| && p.link[t] != 0
    ensures p.texts[t] != [] && (k < |p.texts[t]| ==> (k == 0 <==> IsNumber(p.texts[t][k])) && p.Refers(p.texts[t][k]))
    ensures p.link[t] < SECTION_FLAG ==> t < p.link[t] < |p.texts| && p.link[p.link[t]] != 0
  {
    assert p.TextOk(t);
  }

  // The sections opened are closed again, last opened first closed, whatever is referred to.
  lemma {:induction false} ExpansionNests(p: Program, t: nat, k: nat, section: nat, d: nat, open: seq<nat>)
    requires p.Valid() && Numbered(p) && 1 <= t < |p.texts| && p.link[t] != 0 && k <= |p.texts[t]|
    requires k > 0 ==> section != 0
    ensures Nests(Expand(p, t, k, section, d), if k == 0 then open else open + [section], open)
    decreases d, |p.texts| - t, |p.texts[t]| - k
  {
    InChain(p, t, k);
    if k == |p.texts[t]| {
      if p.link[t] < SECTION_FLAG { ExpansionNests(p, p.link[t], 0, section, d, open); }
      NestClosed(section, if p.link[t] < SECTION_FLAG then Expand(p, p.link[t], 0, section, d) else NIL, open);
    } else {
      ExpansionNests(p, t, k + 1, Current(p.texts[t][k], section), d, open);
      CodeNests(p, p.texts[t][k], d, k, section, Expand(p, t, k + 1, Current(p.texts[t][k], section), d), open);
    }
  }

  lemma {:induction false} CodeNests(p: Program, c: Code, d: nat, k: nat, section: nat, rest: Trace, open: seq<nat>)
    requires p.Valid() && Numbered(p) && p.Refers(c) && (k == 0 <==> IsNumber(c))
    requires Nests(rest, open + [Current(c, section)], open)
    ensures Nests(Taken(p, c, d, rest), if k == 0 then open else open + [section], open)
    decreases d, 0, 1
  {
    if Reference(c) {
      TakenReference(p, c, d, section, rest);
      ReferenceNests(p, c.a - NAMES, d, rest, open + [section], open);
      SameNests(Taken(p, c, d, rest), Refer(p, c.a - NAMES, d, rest), k, section, open);
    } else {
      SimpleTakenNests(p, c, d, k, section, rest, open);
    }
  }

  lemma SameNests(x: Trace, y: Trace, k: nat, section: nat, open: seq<nat>)
    requires x == y && k > 0 && Nests(y, open + [section], open)
    ensures Nests(x, if k == 0 then open else open + [section], open)
  {
  }

  lemma TakenReference(p: Program, c: Code, d: nat, section: nat, rest: Trace)
    requires p.Valid() && p.Refers(c) && Reference(c)
    ensures Taken(p, c, d, rest) == Refer(p, c.a - NAMES, d, rest) && Current(c, section) == section && !IsNumber(c)
  {
  }

  lemma SimpleTakenNests(p: Program, c: Code, d: nat, k: nat, section: nat, rest: Trace, open: seq<nat>)
    requires p.Valid() && p.Refers(c) && !Reference(c) && (k == 0 <==> IsNumber(c))
    requires Nests(rest, open + [Current(c, section)], open)
    ensures Nests(Taken(p, c, d, rest), if k == 0 then open else open + [section], open)
  {
    SimpleNests(c, k, section, rest, open);
  }

  lemma SimpleNests(c: Code, k: nat, section: nat, rest: Trace, open: seq<nat>)
    requires !Reference(c) && (k == 0 <==> IsNumber(c)) && Nests(rest, open + [Current(c, section)], open)
    ensures Nests(Emit(Simple(c), rest), if k == 0 then open else open + [section], open)
  {
    NestEmit(Simple(c), rest, if k == 0 then open else open + [section]);
  }

  // What stands for a reference nests by itself.
  lemma {:induction false} ReferenceNests(p: Program, n: nat, d: nat, rest: Trace, o: seq<nat>, open: seq<nat>)
    requires p.Valid() && Numbered(p) && n < |p.equiv| && Nests(rest, o, open)
    ensures Nests(Refer(p, n, d, rest), o, open)
    decreases d, 0, 0
  {
    if p.equiv[n] == 0 {
      NestEmit(if n == 0 then Quiet else NotPresent(n), rest, o);
    } else if d > 0 {
      ExpansionNests(p, p.equiv[n], 0, 0, d - 1, o);
      NestCall(Expand(p, p.equiv[n], 0, 0, d - 1), rest, o, open);
    }
  }

  lemma NestCall(body: Trace, rest: Trace, o: seq<nat>, open: seq<nat>)
    requires Nests(body, o, o) && Nests(rest, o, open)
    ensures Nests(Emit(Quiet, Then(body, rest)), o, open)
  {
    NestEmit(Quiet, Then(body, rest), o);
    if body.done { NestThen(body, rest, o, o); }
  }

  // ---------- when there is room ----------

  // Code c stands in text t, at k or later, or in the texts that t goes on in.
  predicate HoldsFrom(p: Program, t: nat, k: nat, c: Code)
    requires p.Valid() && t < |p.texts| && k <= |p.texts[t]|
    decreases |p.texts| - t, |p.texts[t]| - k
  {
    if k < |p.texts[t]| then p.texts[t][k] == c || HoldsFrom(p, t, k + 1, c)
    else t < p.link[t] < |p.texts| && HoldsFrom(p, p.link[t], 0, c)
  }

  // Names of which each has texts and is referred to in those of the one before, the first
  // in text t from k on.
  ghost predicate Nesting(p: Program, t: nat, k: nat, names: seq<nat>)
    requires p.Valid() && t < |p.texts| && k <= |p.texts[t]|
    decreases |names|
  {
    names != [] ==>
      && names[0] < |p.equiv| && p.equiv[names[0]] != 0 && NAMES + names[0] < DEFS_FLAG
      && HoldsFrom(p, t, k, Pair(NAMES + names[0])) && Nesting(p, p.equiv[names[0]], 0, names[1..])
  }

  // The macros are put out in the text that the names lead to.
  ghost predicate LeadsToDefs(p: Program, t: nat, k: nat, names: seq<nat>)
    requires p.Valid() && t < |p.texts| && k <= |p.texts[t]| && Nesting(p, t, k, names)
    decreases |names|
  {
    if names == [] then HoldsFrom(p, t, k, Pair(DEFS_FLAG)) else LeadsToDefs(p, p.equiv[names[0]], 0, names[1..])
  }

  // Names nested deeper than d, or d deep with the macros, which take a level, at the end.
  ghost predicate TooDeep(p: Program, t: nat, k: nat, d: nat, names: seq<nat>)
    requires p.Valid() && t < |p.texts| && k <= |p.texts[t]|
  {
    Nesting(p, t, k, names) && (|names| > d || (|names| == d && LeadsToDefs(p, t, k, names)))
  }

  ghost predicate Overfull(p: Program, t: nat, k: nat, d: nat)
    requires p.Valid() && t < |p.texts| && k <= |p.texts[t]|
  {
    exists names: seq<nat> :: TooDeep(p, t, k, d, names)
  }

  // At the end of a text all depends on the next one.
  lemma OverfullNext(p: Program, t: nat, d: nat)
    requires p.Valid() && t < |p.texts|
    ensures var k := |p.texts[t]|;
            if t < p.link[t] < |p.texts| then Overfull(p, t, k, d) <==> Overfull(p, p.link[t], 0, d)
            else !Overfull(p, t, k, d)
  {
    var k := |p.texts[t]|;
    if t < p.link[t] < |p.texts| {
      forall names: seq<nat>
        ensures TooDeep(p, t, k, d, names) <==> TooDeep(p, p.link[t], 0, d, names)
      {
      }
    }
  }

  // A code that is neither a reference nor calls for the macros adds nothing.
  lemma OverfullPast(p: Program, t: nat, k: nat, d: nat, c: Code)
    requires p.Valid() && t < |p.texts| && k < |p.texts[t]| && c == p.texts[t][k]
    requires c == Pair(DEFS_FLAG) ==> d > 0
    requires Reference(c) && c.a - NAMES < |p.equiv| ==> p.equiv[c.a - NAMES] == 0
    ensures Overfull(p, t, k, d) <==> Overfull(p, t, k + 1, d)
  {
    if Overfull(p, t, k, d) {
      var names: seq<nat> :| TooDeep(p, t, k, d, names);
      PastSame(p, t, k, d, c, names);
    }
    if Overfull(p, t, k + 1, d) {
      var names: seq<nat> :| TooDeep(p, t, k + 1, d, names);
      PastSame(p, t, k, d, c, names);
    }
  }

  lemma PastSame(p: Program, t: nat, k: nat, d: nat, c: Code, names: seq<nat>)
    requires p.Valid() && t < |p.texts| && k < |p.texts[t]| && c == p.texts[t][k]
    requires c == Pair(DEFS_FLAG) ==> d > 0
    requires Reference(c) && c.a - NAMES < |p.equiv| ==> p.equiv[c.a - NAMES] == 0
    ensures TooDeep(p, t, k, d, names) <==> TooDeep(p, t, k + 1, d, names)
  {
    if names != [] && c == Pair(NAMES + names[0]) { assert c.a - NAMES == names[0]; }
  }

  // The macros need a level.
  lemma OverfullDefs(p: Program, t: nat, k: nat)
    requires p.Valid() && t < |p.texts| && k < |p.texts[t]| && p.texts[t][k] == Pair(DEFS_FLAG)
    ensures Overfull(p, t, k, 0)
  {
    assert TooDeep(p, t, k, 0, []);
  }

  // A reference adds what its texts come to a level deeper.
  lemma OverfullRefer(p: Program, t: nat, k: nat, d: nat, n: nat)
    requires p.Valid() && t < |p.texts| && k < |p.texts[t]| && p.texts[t][k] == Pair(NAMES + n)
    requires n < |p.equiv| && NAMES + n < DEFS_FLAG && p.equiv[n] != 0
    ensures Overfull(p, t, k, d) <==> d == 0 || Overfull(p, t, k + 1, d) || Overfull(p, p.equiv[n], 0, d - 1)
  {
    if d == 0 {
      assert Nesting(p, p.equiv[n], 0, [n][1..]);
      assert TooDeep(p, t, k, d, [n]);
    } else {
      if Overfull(p, t, k, d) {
        var names: seq<nat> :| TooDeep(p, t, k, d, names);
        SplitDeep(p, t, k, d, n, names);
      }
      if Overfull(p, t, k + 1, d) {
        var names: seq<nat> :| TooDeep(p, t, k + 1, d, names);
        assert TooDeep(p, t, k, d, names);
      }
      if Overfull(p, p.equiv[n], 0, d - 1) {
        var names: seq<nat> :| TooDeep(p, p.equiv[n], 0, d - 1, names);
        assert ([n] + names)[1..] == names;
        assert TooDeep(p, t, k, d, [n] + names);
      }
    }
  }

  lemma SplitDeep(p: Program, t: nat, k: nat, d: nat, n: nat, names: seq<nat>)
    requires p.Valid() && t < |p.texts| && k < |p.texts[t]| && p.texts[t][k] == Pair(NAMES + n)
    requires n < |p.equiv| && NAMES + n < DEFS_FLAG && p.equiv[n] != 0 && d > 0 && TooDeep(p, t, k, d, names)
    ensures Overfull(p, t, k + 1, d) || Overfull(p, p.equiv[n], 0, d - 1)
  {
    if names != [] && names[0] == n {
      assert TooDeep(p, p.equiv[n], 0, d - 1, names[1..]);
    } else {
      assert TooDeep(p, t, k + 1, d, names);
    }
  }

  // The expansion comes to an end exactly if nothing is nested too deep for it.
  lemma {:induction false} DoneIfRoom(p: Program, t: nat, k: nat, section: nat, d: nat)
    requires p.Valid() && t < |p.texts| && p.link[t] != 0 && k <= |p.texts[t]|
    ensures Expand(p, t, k, section, d).done <==> !Overfull(p, t, k, d)
    decreases d, |p.texts| - t, |p.texts[t]| - k
  {
    assert p.TextOk(t);
    if k == |p.texts[t]| {
      OverfullNext(p, t, d);
      if p.link[t] < SECTION_FLAG { DoneIfRoom(p, p.link[t], 0, section, d); }
    } else {
      var c := p.texts[t][k];
      assert p.Refers(c);
      DoneIfRoom(p, t, k + 1, Current(c, section), d);
      CodeDone(p, t, k, section, d, c);
    }
  }

  lemma TakenDone(p: Program, c: Code, d: nat, rest: Trace)
    requires p.Valid() && p.Refers(c)
    ensures Taken(p, c, d, rest).done
       <==> rest.done
            && (c == Pair(DEFS_FLAG) ==> d > 0)
            && (Reference(c) && p.equiv[c.a - NAMES] != 0 ==>
                  d > 0 && Expand(p, p.equiv[c.a - NAMES], 0, 0, d - 1).done)
  {
    if Reference(c) {
      var n := c.a - NAMES;
      TakenReference(p, c, d, 0, rest);
      if p.equiv[n] != 0 && d > 0 {
        var inner := Expand(p, p.equiv[n], 0, 0, d - 1);
        assert Refer(p, n, d, rest) == Emit(Quiet, Then(inner, rest));
      }
    }
  }

  lemma {:induction false} CodeDone(p: Program, t: nat, k: nat, section: nat, d: nat, c: Code)
    requires p.Valid() && t < |p.texts| && p.link[t] != 0 && k < |p.texts[t]| && c == p.texts[t][k] && p.Refers(c)
    requires Expand(p, t, k + 1, Current(c, section), d).done <==> !Overfull(p, t, k + 1, d)
    ensures Expand(p, t, k, section, d).done <==> !Overfull(p, t, k, d)
    decreases d, 0, 1
  {
    var rest := Expand(p, t, k + 1, Current(c, section), d);
    assert Expand(p, t, k, section, d) == Taken(p, c, d, rest);
    TakenDone(p, c, d, rest);
    if Reference(c) && p.equiv[c.a - NAMES] != 0 {
      var n := c.a - NAMES;
      OverfullRefer(p, t, k, d, n);
      if d > 0 { DoneIfRoom(p, p.equiv[n], 0, 0, d - 1); }
    } else if c == Pair(DEFS_FLAG) && d == 0 {
      OverfullDefs(p, t, k);
    } else {
      OverfullPast(p, t, k, d, c);
    }
  }

  // So a program is put out to the end exactly if no section names are nested deeper than the
  // stack, where the macros put out in the middle of a text count as one.
  lemma DoneExactly(p: Program, t: nat)
    requires p.Valid() && t < |p.texts| && p.link[t] != 0
    ensures Expand(p, t, 0, 0, STACK_SIZE - 1).done <==> !Overfull(p, t, 0, STACK_SIZE - 1)
  {
    DoneIfRoom(p, t, 0, 0, STACK_SIZE - 1);
  }

  // In particular if ranks below the stack's size fall along every reference.
  ghost predicate Ranked(p: Program, rank: seq<nat>) {
    && p.Valid() && |rank| == |p.equiv|
    && forall n :: 0 <= n < |rank| && p.equiv[n] != 0 ==> RefersBelow(p, rank, p.equiv[n], rank[n])
  }

  // Every section name with texts that is referred to from text t on has a rank below r.
  ghost predicate RefersBelow(p: Program, rank: seq<nat>, t: nat, r: nat)
    requires p.Valid() && |rank| == |p.equiv| && t < |p.texts|
  {
    forall m :: 0 <= m < |rank| && p.equiv[m] != 0 ==> HoldsFrom(p, t, 0, Pair(NAMES + m)) ==> rank[m] < r
  }

  lemma {:induction false} RankedNesting(p: Program, rank: seq<nat>, t: nat, r: nat, names: seq<nat>)
    requires Ranked(p, rank) && t < |p.texts| && Nesting(p, t, 0, names) && RefersBelow(p, rank, t, r)
    ensures |names| <= r
    decreases |names|
  {
    if names != [] { RankedNesting(p, rank, p.equiv[names[0]], rank[names[0]], names[1..]); }
  }

  lemma RankedIsDone(p: Program, rank: seq<nat>, t: nat, r: nat)
    requires Ranked(p, rank) && t < |p.texts| && p.link[t] != 0 && r < STACK_SIZE - 1
    requires RefersBelow(p, rank, t, r)
    ensures Expand(p, t, 0, 0, STACK_SIZE - 1).done
  {
    DoneExactly(p, t);
    if Overfull(p, t, 0, STACK_SIZE - 1) {
      var names: seq<nat> :| TooDeep(p, t, 0, STACK_SIZE - 1, names);
      RankedNesting(p, rank, t, r, names);
    }
  }
}
