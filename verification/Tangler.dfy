// The stack machine that puts the expanded program out, a step at a time.
module Tangler {
  import opened Wrappers
  import opened Codes
  import opened Expansion

  // Where the machine is: at code k of text t, in a section.
  datatype Place = Place(t: nat, k: nat, section: nat)

  ghost predicate PlaceOk(p: Program, x: Place) {
    x.t < |p.texts| == |p.link| && p.link[x.t] != 0 && x.k <= |p.texts[x.t]|
  }

  // Total, for the lemmas' sake.
  ghost function From(p: Program, x: Place, d: nat): Trace {
    if p.Valid() && PlaceOk(p, x) then Expand(p, x.t, x.k, x.section, d) else NIL
  }

  function Room(depth: nat): nat { if depth <= STACK_SIZE then STACK_SIZE - depth else 0 }

  // What is still to be put out, by the place come to last and then by the ones below it.
  ghost function Remaining(p: Program, places: seq<Place>): Trace {
    if places == [] then NIL
    else Then(From(p, places[|places| - 1], Room(|places|)), Remaining(p, places[..|places| - 1]))
  }

  // Moving the last place on past an event.
  lemma MovedOn(p: Program, below: seq<Place>, y: Place, x: Place, e: Event)
    requires From(p, y, Room(|below| + 1)) == Emit(e, From(p, x, Room(|below| + 1)))
    ensures Remaining(p, below + [y]) == Emit(e, Remaining(p, below + [x]))
  {
    assert (below + [y])[..|below|] == below == (below + [x])[..|below|];
    ThenEmit(e, From(p, x, Room(|below| + 1)), Remaining(p, below));
  }

  // Dropping it at its end.
  lemma Dropped(p: Program, below: seq<Place>, y: Place, e: Event)
    requires From(p, y, Room(|below| + 1)) == Emit(e, NIL)
    ensures Remaining(p, below + [y]) == Emit(e, Remaining(p, below))
  {
    assert (below + [y])[..|below|] == below;
    ThenEmit(e, NIL, Remaining(p, below));
    ThenNil(Remaining(p, below));
  }

  // Going a level deeper, the place below moved on.
  lemma Deeper(p: Program, below: seq<Place>, y: Place, x: Place, z: Place)
    requires |below| + 1 < STACK_SIZE
    requires From(p, y, Room(|below| + 1))
          == Emit(Quiet, Then(From(p, z, Room(|below| + 2)), From(p, x, Room(|below| + 1))))
    ensures Remaining(p, below + [y]) == Emit(Quiet, Remaining(p, below + [x] + [z]))
  {
    var body, rest, low := From(p, z, Room(|below| + 2)), From(p, x, Room(|below| + 1)), Remaining(p, below);
    assert (below + [y])[..|below|] == below == (below + [x])[..|below|];
    assert (below + [x] + [z])[..|below| + 1] == below + [x];
    ThenEmit(Quiet, Then(body, rest), low);
    ThenThen(body, rest, low);
  }

  // No room for another level.
  lemma Overflown(p: Program, below: seq<Place>, y: Place)
    requires From(p, y, Room(|below| + 1)) == OVERFLOW
    ensures Remaining(p, below + [y]) == OVERFLOW
  {
    assert (below + [y])[..|below|] == below;
  }

  // ---------- the steps, place by place ----------

  // At the end of a text: on to the next of its chain, or back.
  lemma AtEnd(p: Program, below: seq<Place>, y: Place)
    requires p.Valid() && PlaceOk(p, y) && y.k == |p.texts[y.t]|
    ensures var e := if y.section == 0 then Quiet else Close(y.section);
            Remaining(p, below + [y]) ==
            Emit(e, if p.link[y.t] < SECTION_FLAG then Remaining(p, below + [Place(p.link[y.t], 0, y.section)])
                    else Remaining(p, below))
    ensures p.link[y.t] < SECTION_FLAG ==> PlaceOk(p, Place(p.link[y.t], 0, y.section))
  {
    var e := if y.section == 0 then Quiet else Close(y.section);
    assert p.TextOk(y.t);
    if p.link[y.t] < SECTION_FLAG {
      MovedOn(p, below, y, Place(p.link[y.t], 0, y.section), e);
    } else {
      Dropped(p, below, y, e);
    }
  }

  lemma FromCode(p: Program, y: Place, d: nat)
    requires p.Valid() && PlaceOk(p, y) && y.k < |p.texts[y.t]|
    ensures var c := p.texts[y.t][y.k];
            var x := Place(y.t, y.k + 1, Current(c, y.section));
            p.Refers(c) && PlaceOk(p, x) && From(p, y, d) == Taken(p, c, d, From(p, x, d))
  {
    assert p.TextOk(y.t);
  }

  // At a code that is not a reference.
  lemma AtSimple(p: Program, below: seq<Place>, y: Place)
    requires p.Valid() && PlaceOk(p, y) && y.k < |p.texts[y.t]| && !Reference(p.texts[y.t][y.k])
    ensures var c := p.texts[y.t][y.k];
            var x := Place(y.t, y.k + 1, Current(c, y.section));
            && PlaceOk(p, x)
            && Remaining(p, below + [y])
            == if c == Pair(DEFS_FLAG) && Room(|below| + 1) == 0 then OVERFLOW
               else Emit(Simple(c), Remaining(p, below + [x]))
  {
    var c := p.texts[y.t][y.k];
    FromCode(p, y, Room(|below| + 1));
    if c == Pair(DEFS_FLAG) && Room(|below| + 1) == 0 {
      Overflown(p, below, y);
    } else {
      MovedOn(p, below, y, Place(y.t, y.k + 1, Current(c, y.section)), Simple(c));
    }
  }

  // At a reference to a section name.
  lemma AtReference(p: Program, below: seq<Place>, y: Place)
    requires p.Valid() && PlaceOk(p, y) && y.k < |p.texts[y.t]| && Reference(p.texts[y.t][y.k])
    ensures var n := p.texts[y.t][y.k].a - NAMES;
            && n < |p.equiv| && PlaceOk(p, Place(y.t, y.k + 1, y.section))
            && (p.equiv[n] != 0 ==> PlaceOk(p, Place(p.equiv[n], 0, 0)))
            && (|below| + 1 <= STACK_SIZE ==>
                  Remaining(p, below + [y]) ==
                  if p.equiv[n] == 0 then
                    Emit(if n == 0 then Quiet else NotPresent(n),
                         Remaining(p, below + [Place(y.t, y.k + 1, y.section)]))
                  else if |below| + 1 == STACK_SIZE then OVERFLOW
                  else Emit(Quiet, Remaining(p, below + [Place(y.t, y.k + 1, y.section)] + [Place(p.equiv[n], 0, 0)])))
  {
    FromCode(p, y, Room(|below| + 1));
    var n := p.texts[y.t][y.k].a - NAMES;
    var x := Place(y.t, y.k + 1, y.section);
    ReferIs(p, n, Room(|below| + 1), From(p, x, Room(|below| + 1)));
    if p.equiv[n] == 0 {
      MovedOn(p, below, y, x, if n == 0 then Quiet else NotPresent(n));
    } else if |below| + 1 == STACK_SIZE {
      Overflown(p, below, y);
    } else if |below| + 1 < STACK_SIZE {
      Deeper(p, below, y, x, Place(p.equiv[n], 0, 0));
    }
  }

  lemma ReferIs(p: Program, n: nat, d: nat, rest: Trace)
    requires p.Valid() && n < |p.equiv|
    ensures p.equiv[n] == 0 ==> Refer(p, n, d, rest) == Emit(if n == 0 then Quiet else NotPresent(n), rest)
    ensures p.equiv[n] != 0 && d == 0 ==> Refer(p, n, d, rest) == OVERFLOW
    ensures p.equiv[n] != 0 ==> PlaceOk(p, Place(p.equiv[n], 0, 0))
    ensures p.equiv[n] != 0 && d > 0 ==>
              Refer(p, n, d, rest) == Emit(Quiet, Then(From(p, Place(p.equiv[n], 0, 0), d - 1), rest))
  {
  }

  // ---------- the codes of a text where its bytes are ----------

  function Offset(codes: seq<Code>, k: nat): nat
    requires k <= |codes|
  { |Encode(codes[..k])| }

  lemma {:induction false} OffsetAt(codes: seq<Code>, k: nat)
    requires k < |codes|
    ensures Offset(codes, k + 1) == Offset(codes, k) + |Bytes(codes[k])| <= |Encode(codes)|
    ensures PartAt(Encode(codes), Offset(codes, k), Bytes(codes[k]))
  {
    assert codes[..k + 1][..k] == codes[..k];
    EncodeSplit(codes, k + 1);
    assert Encode(codes[..k + 1]) == Encode(codes[..k]) + Bytes(codes[k]);
  }

  ghost predicate PartAt(s: seq<nat>, b: nat, part: seq<nat>) {
    b + |part| <= |s| && forall j :: 0 <= j < |part| ==> s[b + j] == part[j]
  }

  lemma OffsetEnd(codes: seq<Code>)
    ensures Offset(codes, |codes|) == |Encode(codes)| && Offset(codes, 0) == 0
  {
    assert codes[..|codes|] == codes;
  }

  // What the bytes of a code tell of it.
  lemma Decoded(c: Code, verbatim: bool)
    requires WellCoded(c, verbatim)
    ensures var s := Bytes(c);
            && (verbatim || s[0] < 128 <==> c.Plain?)
            && (c.Plain? ==> c == Plain(s[0]))
            && (!c.Plain? ==>
                  && s[0] >= 128
                  && var a := (s[0] - 128) * 256 + s[1];
                     && (a != SECTIONS ==> c == Pair(a))
                     && (a == SECTIONS ==>
                           |s| == 6 && s[4] >= 128 && c == Line(256 * s[2] + s[3], 256 * (s[4] - 128) + s[5])))
  {
    ReadBytes(c, [], verbatim);
    assert Bytes(c) + [] == Bytes(c);
  }

  // ---------- the machine ----------

  // output_state: where in token memory the machine reads, which text that is, and the
  // section it belongs to.
  datatype Frame = Frame(byte: nat, end: nat, repl: nat, section: nat)

  class Expander {
    ghost const program: Program
    const tokMem: array<nat>
    const tokStart: array<nat>
    const textLink: seq<nat>
    const equiv: seq<nat>
    const stack: array<Frame>
    var stackPtr: nat
    var cur: Frame
    var verbatim: bool

    constructor (ghost program: Program, tokMem: array<nat>, tokStart: array<nat>, textLink: seq<nat>,
                 equiv: seq<nat>)
      ensures this.program == program && this.tokMem == tokMem && this.tokStart == tokStart
      ensures this.textLink == textLink && this.equiv == equiv && fresh(stack) && stack.Length == STACK_SIZE
    {
      this.program, this.tokMem, this.tokStart, this.textLink, this.equiv := program, tokMem, tokStart, textLink, equiv;
      stack := new Frame[STACK_SIZE](_ => Frame(0, 0, 0, 0));
      stackPtr, cur, verbatim := 0, Frame(0, 0, 0, 0), false;
    }

    ghost predicate Stored(t: nat)
      reads tokMem, tokStart
      requires t < |program.texts| < tokStart.Length
    {
      var s := Encode(program.texts[t]);
      && tokStart[t] + |s| == tokStart[t + 1] <= tokMem.Length
      && forall j :: 0 <= j < |s| ==> tokMem[tokStart[t] + j] == s[j]
    }

    // Token memory and the directories hold the program.
    ghost predicate Loaded()
      reads tokMem, tokStart
    {
      && program.Valid() && |program.texts| < tokStart.Length
      && (forall t :: 0 <= t < |program.texts| ==> Stored(t))
      && textLink == program.link && equiv == program.equiv
    }

    // Frame f is at place x, outside a literal unless in one.
    ghost predicate At(f: Frame, x: Place, literal: bool)
      reads tokMem, tokStart
    {
      && PlaceOk(program, x) && |program.texts| < tokStart.Length
      && f.repl == x.t && f.section == x.section && f.end == tokStart[x.t + 1]
      && f.byte == tokStart[x.t] + Offset(program.texts[x.t], x.k)
      && Verbatim(program.texts[x.t], x.k) == literal
    }

    // The machine is at these places, the last one current, the others on the stack.
    ghost predicate Places(places: seq<Place>)
      reads this, tokMem, tokStart, stack
    {
      && stack.Length == STACK_SIZE && |places| == stackPtr <= STACK_SIZE
      && (places != [] ==> At(cur, places[|places| - 1], verbatim))
      && Saved(places)
    }

    ghost predicate Saved(places: seq<Place>)
      reads this, tokMem, tokStart, stack
      requires |places| <= stack.Length
    {
      forall i :: 1 <= i < |places| ==> At(stack[i], places[i - 1], false)
    }

    // push_level
    method PushLevel(u: nat, ghost places: seq<Place>) returns (ok: bool)
      requires Places(places) && places != [] && !verbatim && PlaceOk(program, Place(u, 0, 0))
      requires |program.texts| < tokStart.Length
      modifies this`stackPtr, this`cur, stack
      ensures ok == (|places| < STACK_SIZE)
      ensures ok ==> Places(places + [Place(u, 0, 0)])
    {
      if stackPtr == STACK_SIZE { return false; }
      stack[stackPtr] := cur;
      stackPtr := stackPtr + 1;
      OffsetEnd(program.texts[u]);
      cur := Frame(tokStart[u], tokStart[u + 1], u, 0);
      return true;
    }

    // pop_level(1): on to the next text of the chain, or back.
    method PopLevel(ghost below: seq<Place>, ghost y: Place)
      requires Places(below + [y]) && y.k == |program.texts[y.t]| && !verbatim
      requires |program.texts| == |textLink| && textLink[y.t] == program.link[y.t]
      requires program.link[y.t] < SECTION_FLAG ==> PlaceOk(program, Place(program.link[y.t], 0, y.section))
      modifies this`stackPtr, this`cur
      ensures Places(if program.link[y.t] < SECTION_FLAG then below + [Place(program.link[y.t], 0, y.section)]
                     else below)
    {
      assert (below + [y])[|below|] == y;
      if textLink[cur.repl] < SECTION_FLAG {
        var t := textLink[cur.repl];
        OffsetEnd(program.texts[t]);
        cur := Frame(tokStart[t], tokStart[t + 1], t, cur.section);
        return;
      }
      stackPtr := stackPtr - 1;
      if stackPtr > 0 {
        cur := stack[stackPtr];
        assert (below + [y])[|below| - 1] == below[|below| - 1];
      }
    }

    // Past a code of so many bytes.
    method Advance(bytes: nat, section: nat, literal: bool, ghost below: seq<Place>, ghost y: Place)
      requires Places(below + [y]) && y.k < |program.texts[y.t]|
      requires bytes == |Bytes(program.texts[y.t][y.k])| && literal == Inside(program.texts[y.t][y.k], verbatim)
      modifies this`cur, this`verbatim
      ensures Places(below + [Place(y.t, y.k + 1, section)])
    {
      assert (below + [y])[|below|] == y;
      NextAt(cur, y, section);
      SavedBelow(below, y, Place(y.t, y.k + 1, section));
      cur := cur.(byte := cur.byte + bytes, section := section);
      verbatim := literal;
    }

    lemma NextAt(f: Frame, y: Place, section: nat)
      requires At(f, y, verbatim) && y.k < |program.texts[y.t]|
      ensures var c := program.texts[y.t][y.k];
              At(f.(byte := f.byte + |Bytes(c)|, section := section), Place(y.t, y.k + 1, section), Inside(c, verbatim))
    {
      OffsetAt(program.texts[y.t], y.k);
    }

    lemma SavedBelow(below: seq<Place>, y: Place, x: Place)
      requires |below| < stack.Length && Saved(below + [y])
      ensures Saved(below + [x])
    {
      forall i | 1 <= i < |below + [x]|
        ensures At(stack[i], (below + [x])[i - 1], false)
      {
        assert (below + [x])[i - 1] == (below + [y])[i - 1];
      }
    }

    lemma BytesAt(t: nat, k: nat)
      requires t < |program.texts| < tokStart.Length && k < |program.texts[t]| && Stored(t)
      ensures var c := program.texts[t][k];
              var b := tokStart[t] + Offset(program.texts[t], k);
              && b + |Bytes(c)| <= tokStart[t + 1] <= tokMem.Length
              && forall j :: 0 <= j < |Bytes(c)| ==> tokMem[b + j] == Bytes(c)[j]
    {
      var codes := program.texts[t];
      OffsetAt(codes, k);
      ByteAt(t, Encode(codes), Offset(codes, k), Bytes(codes[k]));
    }

    lemma ByteAt(t: nat, s: seq<nat>, b: nat, part: seq<nat>)
      requires t < tokStart.Length && tokStart[t] + |s| <= tokMem.Length && PartAt(s, b, part)
      requires forall j :: 0 <= j < |s| ==> tokMem[tokStart[t] + j] == s[j]
      ensures forall j :: 0 <= j < |part| ==> tokMem[tokStart[t] + b + j] == part[j]
    {
      forall j | 0 <= j < |part|
        ensures tokMem[tokStart[t] + b + j] == part[j]
      {
        assert tokMem[tokStart[t] + (b + j)] == s[b + j];
      }
    }

    // Where the machine is in its text, and what it reads there.
    lemma Here(below: seq<Place>, y: Place)
      requires Loaded() && Places(below + [y])
      ensures y.k == |program.texts[y.t]| ==> !verbatim
      ensures PlaceOk(program, y) && y.section == cur.section
      ensures cur.byte == cur.end <==> y.k == |program.texts[y.t]|
      ensures y.k < |program.texts[y.t]| ==>
                var c := program.texts[y.t][y.k];
                && WellCoded(c, verbatim) && cur.byte + |Bytes(c)| <= tokMem.Length
                && forall j :: 0 <= j < |Bytes(c)| ==> tokMem[cur.byte + j] == Bytes(c)[j]
    {
      assert (below + [y])[|below|] == y;
      assert program.TextOk(y.t) && Stored(y.t);
      if y.k < |program.texts[y.t]| { BytesAt(y.t, y.k); } else { OffsetEnd(program.texts[y.t]); }
    }

    // One step of get_output.
    method Step(ghost places: seq<Place>) returns (ok: bool, e: Event, ghost after: seq<Place>)
      requires Loaded() && Places(places) && places != []
      modifies this`stackPtr, this`cur, this`verbatim, stack
      ensures ok ==> Places(after) && Remaining(program, places) == Emit(e, Remaining(program, after))
      ensures !ok ==> Remaining(program, places) == OVERFLOW
    {
      ghost var below, y := places[..|places| - 1], places[|places| - 1];
      assert places == below + [y];
      Here(below, y);
      if cur.byte == cur.end {
        e := if cur.section == 0 then Quiet else Close(cur.section);
        AtEnd(program, below, y);
        after := if program.link[y.t] < SECTION_FLAG then below + [Place(program.link[y.t], 0, y.section)] else below;
        PopLevel(below, y);
        ok := true;
      } else {
        ok, e, after := Take(below, y);
      }
    }

    // The code at the current place.
    method Take(ghost below: seq<Place>, ghost y: Place) returns (ok: bool, e: Event, ghost after: seq<Place>)
      requires Loaded() && Places(below + [y]) && PlaceOk(program, y) && y.k < |program.texts[y.t]|
      modifies this`stackPtr, this`cur, this`verbatim, stack
      ensures ok ==> Places(after) && Remaining(program, below + [y]) == Emit(e, Remaining(program, after))
      ensures !ok ==> Remaining(program, below + [y]) == OVERFLOW
    {
      ghost var c := program.texts[y.t][y.k];
      Here(below, y);
      Decoded(c, verbatim);
      var a := tokMem[cur.byte];
      if verbatim || a < 128 {
        ok, e, after := Put(Byte(a), 1, cur.section, if Delimiter(a) then !verbatim else verbatim, below, y);
      } else {
        a := (a - 128) * 256 + tokMem[cur.byte + 1];
        if a < NAMES {
          ok, e, after := Put(Name(a), 2, cur.section, verbatim, below, y);
        } else if a < SECTIONS {
          if a == DEFS_FLAG {
            ok, e, after := Put(Defs, 2, cur.section, verbatim, below, y);
          } else {
            ok, e, after := Call(a - NAMES, below, y);
          }
        } else if a > SECTIONS {
          ok, e, after := Put(Open(a - SECTIONS), 2, a - SECTIONS, verbatim, below, y);
        } else {
          var number := 256 * tokMem[cur.byte + 2] + tokMem[cur.byte + 3];
          var file := 256 * (tokMem[cur.byte + 4] - 128) + tokMem[cur.byte + 5];
          ok, e, after := Put(LineInfo(number, file), 6, cur.section, verbatim, below, y);
        }
      }
    }

    // Put out what a code other than a reference stands for; the macros need a level of
    // the stack for themselves.
    method Put(e: Event, bytes: nat, section: nat, literal: bool, ghost below: seq<Place>, ghost y: Place)
      returns (ok: bool, e': Event, ghost after: seq<Place>)
      requires Places(below + [y]) && program.Valid() && PlaceOk(program, y) && y.k < |program.texts[y.t]|
      requires var c := program.texts[y.t][y.k];
               && !Reference(c) && e == Simple(c) && bytes == |Bytes(c)| && section == Current(c, y.section)
               && literal == Inside(c, verbatim) && (c.Pair? ==> c.a != SECTIONS)
      modifies this`cur, this`verbatim
      ensures e' == e
      ensures ok ==> Places(after) && Remaining(program, below + [y]) == Emit(e, Remaining(program, after))
      ensures !ok ==> Remaining(program, below + [y]) == OVERFLOW
    {
      AtSimple(program, below, y);
      Advance(bytes, section, literal, below, y);
      after := below + [Place(y.t, y.k + 1, section)];
      return e != Defs || stackPtr < STACK_SIZE, e, after;
    }

    // A reference to section name n.
    method Call(n: nat, ghost below: seq<Place>, ghost y: Place) returns (ok: bool, e: Event, ghost after: seq<Place>)
      requires Loaded() && Places(below + [y]) && PlaceOk(program, y) && y.k < |program.texts[y.t]|
      requires Reference(program.texts[y.t][y.k]) && n == program.texts[y.t][y.k].a - NAMES && !verbatim
      modifies this`stackPtr, this`cur, this`verbatim, stack
      ensures ok ==> Places(after) && Remaining(program, below + [y]) == Emit(e, Remaining(program, after))
      ensures !ok ==> Remaining(program, below + [y]) == OVERFLOW
    {
      AtReference(program, below, y);
      e := if equiv[n] == 0 && n != 0 then NotPresent(n) else Quiet;
      ok, after := Follow(n, below, y);
    }

    // Past the reference, and into the texts of name n if it has any.
    method Follow(n: nat, ghost below: seq<Place>, ghost y: Place) returns (ok: bool, ghost after: seq<Place>)
      requires Loaded() && Places(below + [y]) && y.k < |program.texts[y.t]| && y.section == cur.section
      requires program.texts[y.t][y.k] == Pair(NAMES + n) && n < |program.equiv| && !verbatim
      requires equiv[n] != 0 ==> PlaceOk(program, Place(equiv[n], 0, 0))
      modifies this`stackPtr, this`cur, this`verbatim, stack
      ensures ok == (equiv[n] == 0 || |below| + 1 < STACK_SIZE)
      ensures var x := Place(y.t, y.k + 1, y.section);
              after == if equiv[n] == 0 then below + [x] else below + [x] + [Place(equiv[n], 0, 0)]
      ensures ok ==> Places(after)
    {
      Advance(2, cur.section, false, below, y);
      ok, after := true, below + [Place(y.t, y.k + 1, y.section)];
      if equiv[n] != 0 {
        ok := PushLevel(equiv[n], after);
        after := after + [Place(equiv[n], 0, 0)];
      }
    }

    // get_output: steps until something is put out, or nothing is left.
    method GetOutput(ghost places: seq<Place>) returns (ok: bool, out: seq<Event>, ghost after: seq<Place>)
      requires Loaded() && Places(places)
      modifies this`stackPtr, this`cur, this`verbatim, stack
      ensures ok ==> Places(after) && Leads(Remaining(program, places), out, Remaining(program, after))
      ensures !ok ==> out == [] && Leads(Remaining(program, places), [], OVERFLOW)
      ensures ok && stackPtr > 0 ==> Shorter(Remaining(program, after), Remaining(program, places))
    {
      ghost var start := Remaining(program, places);
      after := places;
      LeadsNowhere(start);
      while stackPtr > 0
        invariant Places(after) && Leads(start, [], Remaining(program, after))
        invariant after == places || Shorter(Remaining(program, after), start)
        decreases |Remaining(program, after).events|
      {
        ghost var before := after;
        var e;
        ok, e, after := Step(before);
        if !ok { return false, [], before; }
        LeadsOn(start, e, Remaining(program, after));
        if e != Quiet { return true, [e], after; }
      }
      return true, [], after;
    }

    // Putting out everything that starts from text t: exactly the visible part of its
    // expansion, or as much of it as the stack has room for.
    method Output(t: nat) returns (ok: bool, out: seq<Event>)
      requires Loaded() && stack.Length == STACK_SIZE && t < |program.texts| && program.link[t] != 0
      modifies this`stackPtr, this`cur, this`verbatim, stack
      ensures var x := Expand(program, t, 0, 0, STACK_SIZE - 1);
              ok == x.done && out == Visible(x.events)
    {
      Begin(t);
      AloneRemains(program, t);
      ok, out := Drain([Place(t, 0, 0)]);
    }

    method Begin(t: nat)
      requires |program.texts| < tokStart.Length && stack.Length == STACK_SIZE && PlaceOk(program, Place(t, 0, 0))
      modifies this`stackPtr, this`cur, this`verbatim
      ensures Places([Place(t, 0, 0)])
    {
      OffsetEnd(program.texts[t]);
      stackPtr, verbatim, cur := 1, false, Frame(tokStart[t], tokStart[t + 1], t, 0);
    }

    method Drain(ghost initial: seq<Place>) returns (ok: bool, out: seq<Event>)
      requires Loaded() && Places(initial)
      modifies this`stackPtr, this`cur, this`verbatim, stack
      ensures ok == Remaining(program, initial).done && out == Visible(Remaining(program, initial).events)
    {
      ghost var places, start := initial, Remaining(program, initial);
      LeadsNowhere(start);
      out := [];
      while stackPtr > 0
        invariant Places(places) && Leads(start, out, Remaining(program, places))
        decreases |Remaining(program, places).events|, stackPtr
      {
        ghost var before := Remaining(program, places);
        var more;
        ok, more, places := GetOutput(places);
        if !ok {
          LeadsTogether(start, out, before, [], OVERFLOW);
          return;
        }
        LeadsTogether(start, out, before, more, Remaining(program, places));
        out := out + more;
      }
      ok := true;
    }
  }

  // Trace x shows out and then what is left of it shows the rest.
  ghost predicate Leads(x: Trace, out: seq<Event>, rest: Trace) {
    x.done == rest.done && Visible(x.events) == out + Visible(rest.events)
  }

  ghost predicate Shorter(x: Trace, y: Trace) { |x.events| < |y.events| }

  lemma LeadsNowhere(x: Trace)
    ensures Leads(x, [], x)
  {
  }

  lemma LeadsOn(x: Trace, e: Event, rest: Trace)
    requires Leads(x, [], Emit(e, rest))
    ensures Leads(x, if e == Quiet then [] else [e], rest)
  {
    assert Emit(e, rest).events[1..] == rest.events;
  }

  lemma LeadsTogether(x: Trace, out: seq<Event>, y: Trace, more: seq<Event>, rest: Trace)
    requires Leads(x, out, y) && Leads(y, more, rest)
    ensures Leads(x, out + more, rest)
  {
    Associative(out, more, Visible(rest.events));
  }

  lemma AloneRemains(p: Program, t: nat)
    requires p.Valid() && t < |p.texts| && p.link[t] != 0
    ensures Remaining(p, [Place(t, 0, 0)]) == Expand(p, t, 0, 0, STACK_SIZE - 1)
  {
    var x := Expand(p, t, 0, 0, STACK_SIZE - 1);
    assert [Place(t, 0, 0)][..0] == [];
    assert x.events + [] == x.events;
  }
}
