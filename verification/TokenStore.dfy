// Laying replacement texts down in token memory, byte by byte.
module TokenStore {
  import opened Wrappers
  import opened Codes
  import opened Items

  lemma {:induction false} EncodeAppend(x: seq<Code>, y: seq<Code>)
    ensures Encode(x + y) == Encode(x) + Encode(y)
  {
    if y == [] {
      assert x + y == x;
    } else {
      var n := |y| - 1;
      EncodeAppend(x, y[..n]);
      assert (x + y)[..|x + y| - 1] == x + y[..n];
      Associative(Encode(x), Encode(y[..n]), Bytes(y[n]));
    }
  }

  lemma EncodeOne(c: Code)
    ensures Encode([c]) == Bytes(c)
  {
    assert [c][..0] == [];
    assert [] + Bytes(c) == Bytes(c);
  }

  lemma {:induction false} EncodePlains(text: seq<nat>)
    ensures Encode(Plains(text)) == text
  {
    if text != [] {
      var n := |text| - 1;
      EncodePlains(text[..n]);
      assert Plains(text)[..n] == Plains(text[..n]);
      assert text == text[..n] + [text[n]];
    }
  }

  lemma EncodeLiteral(d: nat, text: seq<nat>)
    ensures Encode(CodesOf(Literal(d, text))) == [d] + text + [d]
  {
    EncodeAppend([Plain(d)] + Plains(text), [Plain(d)]);
    EncodeAppend([Plain(d)], Plains(text));
    EncodePlains(text);
    EncodeOne(Plain(d));
  }

  lemma EncodeItem(i: Item)
    ensures !i.Literal? ==> |CodesOf(i)| == 1 && Encode(CodesOf(i)) == Bytes(CodesOf(i)[0])
  {
    if !i.Literal? {
      assert CodesOf(i) == [CodesOf(i)[0]];
      EncodeOne(CodesOf(i)[0]);
    }
  }

  const AT: nat := 64

  // A doubled @ stands for one.
  function Undouble(s: seq<nat>): seq<nat> {
    if s == [] then []
    else if s[0] == AT && |s| > 1 && s[1] == AT then [AT] + Undouble(s[2..])
    else [s[0]] + Undouble(s[1..])
  }

  function Double(s: seq<nat>): seq<nat> {
    if s == [] then [] else (if s[0] == AT then [AT, AT] else [s[0]]) + Double(s[1..])
  }

  // Whatever is to stand in a literal can be written with doubled @s.
  lemma {:induction false} UndoubleDouble(s: seq<nat>)
    ensures Undouble(Double(s)) == s
  {
    if s != [] {
      UndoubleDouble(s[1..]);
      var d := Double(s);
      if s[0] == AT { assert d[2..] == Double(s[1..]); } else { assert d[1..] == Double(s[1..]); }
    }
  }

  class Store {
    const tokMem: array<nat>
    var tokPtr: nat

    ghost predicate Valid()
      reads this
    { tokPtr <= tokMem.Length }

    ghost function Contents(): seq<nat>
      reads this, tokMem
      requires Valid()
    { tokMem[..tokPtr] }

    constructor (tokMem: array<nat>)
      ensures this.tokMem == tokMem && Valid() && Contents() == []
    {
      this.tokMem, tokPtr := tokMem, 0;
    }

    // app_repl
    method AppRepl(c: nat) returns (ok: bool)
      requires Valid()
      modifies this, tokMem
      ensures Valid() && ok == (old(tokPtr) < tokMem.Length)
      ensures ok ==> Contents() == old(Contents()) + [c]
    {
      if tokPtr == tokMem.Length { return false; }
      tokMem[tokPtr] := c;
      tokPtr := tokPtr + 1;
      return true;
    }

    // store_two_bytes
    method StoreTwoBytes(x: nat) returns (ok: bool)
      requires Valid()
      modifies this, tokMem
      ensures Valid() && ok == (old(tokPtr) + 2 <= tokMem.Length)
      ensures ok ==> Contents() == old(Contents()) + TwoBytes(x)
    {
      if tokPtr + 2 > tokMem.Length { return false; }
      tokMem[tokPtr] := x / 256;
      tokPtr := tokPtr + 1;
      tokMem[tokPtr] := x % 256;
      tokPtr := tokPtr + 1;
      return true;
    }

    // A two-byte code whose high byte is raised by 128.
    method StorePair(a: nat) returns (ok: bool)
      requires Valid()
      modifies this, tokMem
      ensures Valid() && ok == (old(tokPtr) + 2 <= tokMem.Length)
      ensures ok ==> Contents() == old(Contents()) + Bytes(Pair(a))
    {
      ok := AppRepl(a / 256 + 128);
      if ok {
        ghost var half := Contents();
        ok := AppRepl(a % 256);
        if ok { Associative(old(Contents()), [a / 256 + 128], [a % 256]); }
      }
    }

    // Line number and file name of what follows.
    method StoreLineMark(number: nat, file: nat) returns (ok: bool)
      requires Valid()
      modifies this, tokMem
      ensures Valid() && ok == (old(tokPtr) + 6 <= tokMem.Length)
      ensures ok ==> Contents() == old(Contents()) + Bytes(Line(number, file))
    {
      ok := StoreTwoBytes(LINE);
      if !ok { return; }
      ok := StoreTwoBytes(number);
      if !ok { return; }
      ghost var four := Contents();
      ok := StorePair(file);
      if ok {
        Associative(old(Contents()), TwoBytes(LINE), TwoBytes(number));
        Associative(old(Contents()), TwoBytes(LINE) + TwoBytes(number), Bytes(Pair(file)));
        assert Bytes(Line(number, file)) == TwoBytes(LINE) + TwoBytes(number) + Bytes(Pair(file));
      }
    }

    // A literal between two delimiters, doubled @s made single.
    method StoreLiteral(d: nat, raw: seq<nat>) returns (ok: bool)
      requires Valid()
      modifies this, tokMem
      ensures Valid() && ok == (old(tokPtr) + |Undouble(raw)| + 2 <= tokMem.Length)
      ensures ok ==> Contents() == old(Contents()) + Encode(CodesOf(Literal(d, Undouble(raw))))
    {
      ok := AppRepl(d);
      if !ok { return; }
      ok := StoreText(raw);
      if !ok { return; }
      ok := AppRepl(d);
      EncodeLiteral(d, Undouble(raw));
      if ok {
        Associative(old(Contents()), [d], Undouble(raw));
        Associative(old(Contents()), [d] + Undouble(raw), [d]);
      }
    }

    method StoreText(raw: seq<nat>) returns (ok: bool)
      requires Valid()
      modifies this, tokMem
      ensures Valid() && ok == (old(tokPtr) + |Undouble(raw)| <= tokMem.Length)
      ensures ok ==> tokPtr == old(tokPtr) + |Undouble(raw)| && Contents() == old(Contents()) + Undouble(raw)
    {
      ghost var start, text := Contents(), Undouble(raw);
      var idFirst := 0;
      ghost var done := [];
      assert raw[0..] == raw;
      while idFirst < |raw|
        invariant Valid() && idFirst <= |raw| && text == done + Undouble(raw[idFirst..])
        invariant Contents() == start + done && tokPtr == |start| + |done|
        decreases |raw| - idFirst
      {
        var k := if raw[idFirst] == AT && idFirst + 1 < |raw| && raw[idFirst + 1] == AT then idFirst + 1 else idFirst;
        UndoubleStep(raw, idFirst, k, done);
        ok := AppRepl(raw[k]);
        if !ok { return; }
        Associative(start, done, [raw[k]]);
        done := done + [raw[k]];
        idFirst := k + 1;
      }
      assert text == done;
      ok := true;
    }

    // The number of a section, coded like the marker of a line.
    method StoreSectionNumber(n: nat) returns (ok: bool)
      requires Valid()
      modifies this, tokMem
      ensures Valid() && ok == (old(tokPtr) + 2 <= tokMem.Length)
      ensures ok ==> Contents() == old(Contents()) + Bytes(Pair(SECTIONS + n))
    {
      ok := StoreTwoBytes(LINE + n);
      assert TwoBytes(LINE + n) == Bytes(Pair(SECTIONS + n));
    }

    // One item; a literal comes with its at-signs doubled.
    method StoreItem(i: Item) returns (ok: bool)
      requires Valid()
      modifies this, tokMem
      ensures Valid() && ok == (old(tokPtr) + |Encode(CodesOf(i))| <= tokMem.Length)
      ensures ok ==> Contents() == old(Contents()) + Encode(CodesOf(i))
    {
      EncodeItem(i);
      match i {
        case Char(c) => ok := AppRepl(c);
        case Identifier(n) => ok := StorePair(n);
        case SectionName(n) => ok := StorePair(NAMES + n);
        case OutputDefs => ok := StorePair(DEFS_FLAG);
        case SectionNumber(n) => ok := StoreSectionNumber(n);
        case LineMark(number, file) => ok := StoreLineMark(number, file);
        case Literal(d, text) =>
          UndoubleDouble(text);
          EncodeLiteral(d, text);
          ok := StoreLiteral(d, Double(text));
      }
    }

    // scan_repl, as far as it lays down the items of a text.
    method StoreItems(items: seq<Item>) returns (ok: bool)
      requires Valid()
      modifies this, tokMem
      ensures Valid() && ok == (old(tokPtr) + |Encode(Flatten(items))| <= tokMem.Length)
      ensures ok ==> Contents() == old(Contents()) + Encode(Flatten(items))
    {
      ghost var start := Contents();
      ghost var done := [];
      var k := 0;
      assert items[0..] == items;
      while k < |items|
        invariant k <= |items| && Valid() && Contents() == start + done
        invariant Encode(Flatten(items)) == done + Encode(Flatten(items[k..]))
      {
        ghost var codes := CodesOf(items[k]);
        assert items[k..][0] == items[k] && items[k..][1..] == items[k + 1..];
        EncodeAppend(codes, Flatten(items[k + 1..]));
        Associative(done, Encode(codes), Encode(Flatten(items[k + 1..])));
        ok := StoreItem(items[k]);
        if !ok { return; }
        Associative(start, done, Encode(codes));
        done := done + Encode(codes);
        k := k + 1;
      }
      assert done + Encode(Flatten([])) == done;
      ok := true;
    }
  }

  lemma UndoubleStep(raw: seq<nat>, i: nat, k: nat, done: seq<nat>)
    requires i < |raw|
    requires k == if raw[i] == AT && i + 1 < |raw| && raw[i + 1] == AT then i + 1 else i
    ensures done + Undouble(raw[i..]) == done + [raw[k]] + Undouble(raw[k + 1..])
  {
    var rest := raw[i..];
    assert rest[0] == raw[i] && (|rest| > 1 ==> rest[1] == raw[i + 1]);
    assert raw[k + 1..] == if k == i then rest[1..] else rest[2..];
    Associative(done, [raw[k]], Undouble(raw[k + 1..]));
  }
}
