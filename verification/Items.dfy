// What a replacement text is made of, how it is coded, and how it is laid down in memory.
module Items {
  import opened Wrappers
  import opened Codes

  datatype Item =
    | Char(c: nat)
    | Identifier(n: nat)
    | SectionName(n: nat)
    | OutputDefs
    | SectionNumber(n: nat)
    | LineMark(number: nat, file: nat)
    | Literal(delimiter: nat, text: seq<nat>)

  // A literal holds neither of the two delimiters; the section name whose code would be
  // that of OutputDefs does not exist.
  ghost predicate WellItem(i: Item) {
    match i
    case Char(c) => c < 128 && !Delimiter(c)
    case Identifier(n) => n < NAMES
    case SectionName(n) => n < NAMES - 1
    case OutputDefs => true
    case SectionNumber(n) => 1 <= n && SECTIONS + n < 0x8000
    case LineMark(n, f) => n < 0x1_0000 && f < NAMES
    case Literal(d, text) => Delimiter(d) && forall k :: 0 <= k < |text| ==> text[k] < 256 && !Delimiter(text[k])
  }

  function Plains(text: seq<nat>): seq<Code> { seq(|text|, k requires 0 <= k < |text| => Plain(text[k])) }

  function CodesOf(i: Item): seq<Code> {
    match i
    case Char(c) => [Plain(c)]
    case Identifier(n) => [Pair(n)]
    case SectionName(n) => [Pair(NAMES + n)]
    case OutputDefs => [Pair(DEFS_FLAG)]
    case SectionNumber(n) => [Pair(SECTIONS + n)]
    case LineMark(n, f) => [Line(n, f)]
    case Literal(d, text) => [Plain(d)] + Plains(text) + [Plain(d)]
  }

  function Flatten(items: seq<Item>): seq<Code> {
    if items == [] then [] else CodesOf(items[0]) + Flatten(items[1..])
  }

  // ---------- reading them back ----------

  // Where the literal begun before k ends.
  function LiteralEnd(codes: seq<Code>, k: nat): (e: nat)
    requires k <= |codes|
    ensures k <= e <= |codes|
    ensures forall j :: k <= j < e ==> codes[j].Plain? && !Delimiter(codes[j].b)
    ensures e < |codes| ==> !(codes[e].Plain? && !Delimiter(codes[e].b))
    decreases |codes| - k
  {
    if k < |codes| && codes[k].Plain? && !Delimiter(codes[k].b) then LiteralEnd(codes, k + 1) else k
  }

  function TextOf(codes: seq<Code>): seq<nat>
    requires forall k :: 0 <= k < |codes| ==> codes[k].Plain?
  {
    seq(|codes|, k requires 0 <= k < |codes| => codes[k].b)
  }

  function FirstItem(codes: seq<Code>): Option<Item>
    requires codes != []
  {
    match codes[0]
    case Line(n, f) => Some(LineMark(n, f))
    case Pair(a) =>
      if a < NAMES then Some(Identifier(a))
      else if a == DEFS_FLAG then Some(OutputDefs)
      else if a < SECTIONS then Some(SectionName(a - NAMES))
      else Some(SectionNumber(a - SECTIONS))
    case Plain(b) =>
      if !Delimiter(b) then Some(Char(b))
      else
        var e := LiteralEnd(codes, 1);
        if e == |codes| || codes[e] != Plain(b) then None else Some(Literal(b, TextOf(codes[1..e])))
  }

  function Parse(codes: seq<Code>): Option<seq<Item>>
    decreases |codes|
  {
    if codes == [] then Some([])
    else
      match FirstItem(codes)
      case None => None
      case Some(i) =>
        if |CodesOf(i)| > |codes| then None
        else
          match Parse(codes[|CodesOf(i)|..])
          case None => None
          case Some(items) => Some([i] + items)
  }

  lemma {:induction false} LiteralEndIs(codes: seq<Code>, k: nat, e: nat)
    requires k <= e < |codes| && forall j :: k <= j < e ==> codes[j].Plain? && !Delimiter(codes[j].b)
    requires !(codes[e].Plain? && !Delimiter(codes[e].b))
    ensures LiteralEnd(codes, k) == e
    decreases e - k
  {
    if k < e { LiteralEndIs(codes, k + 1, e); }
  }

  lemma LiteralAt(d: nat, text: seq<nat>, rest: seq<Code>, j: nat)
    requires j < |text|
    ensures ([Plain(d)] + Plains(text) + [Plain(d)] + rest)[j + 1] == Plain(text[j])
  {
  }

  lemma FirstLiteralIs(d: nat, text: seq<nat>, rest: seq<Code>)
    requires Delimiter(d) && forall k :: 0 <= k < |text| ==> !Delimiter(text[k])
    ensures FirstItem([Plain(d)] + Plains(text) + [Plain(d)] + rest) == Some(Literal(d, text))
  {
    var codes := [Plain(d)] + Plains(text) + [Plain(d)] + rest;
    var e := |text| + 1;
    forall j | 1 <= j < e
      ensures codes[j] == Plain(text[j - 1])
    {
      LiteralAt(d, text, rest, j - 1);
    }
    assert codes[0] == Plain(d) && codes[e] == Plain(d);
    LiteralEndIs(codes, 1, e);
    assert TextOf(codes[1..e]) == text;
  }

  lemma FirstItemIs(i: Item, rest: seq<Code>)
    requires WellItem(i)
    ensures FirstItem(CodesOf(i) + rest) == Some(i)
  {
    if i.Literal? { FirstLiteralIs(i.delimiter, i.text, rest); }
  }

  // Items read back from the codes.
  lemma {:induction false} ParseFlatten(items: seq<Item>)
    requires forall k :: 0 <= k < |items| ==> WellItem(items[k])
    ensures Parse(Flatten(items)) == Some(items)
  {
    if items != [] {
      var rest := Flatten(items[1..]);
      ParseFlatten(items[1..]);
      FirstItemIs(items[0], rest);
      assert (CodesOf(items[0]) + rest)[|CodesOf(items[0])|..] == rest;
      assert [items[0]] + items[1..] == items;
    }
  }

  // Their codes are well formed: outside literals before and after each.
  lemma {:induction false} VerbatimAppend(x: seq<Code>, y: seq<Code>, k: nat)
    requires k <= |y| && !Verbatim(x, |x|)
    ensures Verbatim(x + y, |x| + k) == Verbatim(y, k)
  {
    if k == 0 { VerbatimPrefix(x, y, |x|); } else { VerbatimAppend(x, y, k - 1); }
  }

  lemma {:induction false} VerbatimPrefix(x: seq<Code>, y: seq<Code>, k: nat)
    requires k <= |x|
    ensures Verbatim(x + y, k) == Verbatim(x, k)
  {
    if k > 0 { VerbatimPrefix(x, y, k - 1); }
  }

  lemma WellFormedAppend(x: seq<Code>, y: seq<Code>)
    requires WellFormed(x) && WellFormed(y)
    ensures WellFormed(x + y)
  {
    forall k | 0 <= k < |x + y|
      ensures WellCoded((x + y)[k], Verbatim(x + y, k))
    {
      if k < |x| { VerbatimPrefix(x, y, k); } else { VerbatimAppend(x, y, k - |x|); }
    }
    VerbatimAppend(x, y, |y|);
  }

  lemma {:induction false} LiteralVerbatim(d: nat, text: seq<nat>, k: nat)
    requires Delimiter(d) && 1 <= k <= |text| + 1 && forall j :: 0 <= j < |text| ==> !Delimiter(text[j])
    ensures Verbatim([Plain(d)] + Plains(text) + [Plain(d)], k)
  {
    var codes := [Plain(d)] + Plains(text) + [Plain(d)];
    if k > 1 {
      LiteralVerbatim(d, text, k - 1);
      assert codes[k - 1] == Plain(text[k - 2]);
    } else {
      assert !Verbatim(codes, 0) && codes[0] == Plain(d);
    }
  }

  lemma LiteralWellFormed(d: nat, text: seq<nat>)
    requires WellItem(Literal(d, text))
    ensures WellFormed(CodesOf(Literal(d, text)))
  {
    var codes := CodesOf(Literal(d, text));
    forall k | 0 <= k < |codes|
      ensures WellCoded(codes[k], Verbatim(codes, k))
    {
      if k > 0 { LiteralVerbatim(d, text, k); }
    }
    LiteralVerbatim(d, text, |text| + 1);
    assert codes[|codes| - 1] == Plain(d);
  }

  lemma ItemWellFormed(i: Item)
    requires WellItem(i)
    ensures WellFormed(CodesOf(i))
  {
    var codes := CodesOf(i);
    if i.Literal? {
      LiteralWellFormed(i.delimiter, i.text);
    } else {
      assert |codes| == 1 && !Verbatim(codes, 0);
    }
  }

  lemma {:induction false} FlattenWellFormed(items: seq<Item>)
    requires forall k :: 0 <= k < |items| ==> WellItem(items[k])
    ensures WellFormed(Flatten(items))
  {
    if items != [] {
      FlattenWellFormed(items[1..]);
      ItemWellFormed(items[0]);
      WellFormedAppend(CodesOf(items[0]), Flatten(items[1..]));
    }
  }

  // From items to bytes and back.
  lemma ItemsRoundTrip(items: seq<Item>)
    requires forall k :: 0 <= k < |items| ==> WellItem(items[k])
    ensures var codes := Decode(Encode(Flatten(items)), false);
            codes.Some? && Parse(codes.value) == Some(items)
  {
    FlattenWellFormed(items);
    RoundTrip(Flatten(items));
    ParseFlatten(items);
  }
}
