// The byte code in which replacement texts are kept.
module Codes {
  import opened Wrappers

  const STRING: nat := 2
  const CONSTANT: nat := 3
  const NAMES: nat := 10240          // 024000
  const DEFS_FLAG: nat := 20479      // output_defs_flag
  const SECTIONS: nat := 20480       // 050000
  const LINE: nat := 53248           // 0150000

  // A piece of a text: a byte, a two-byte code (the high byte's top bit left out), or a
  // line marker.
  datatype Code = Plain(b: nat) | Pair(a: nat) | Line(number: nat, file: nat)

  predicate Delimiter(b: nat) { b == STRING || b == CONSTANT }

  // Between two delimiters any byte stands for itself; elsewhere bytes from 128 on begin
  // a longer code.
  predicate WellCoded(c: Code, verbatim: bool) {
    match c
    case Plain(b) => b < (if verbatim then 256 else 128)
    case Pair(a) => !verbatim && a < 0x8000 && a != SECTIONS
    case Line(n, f) => !verbatim && n < 0x1_0000 && f < NAMES
  }

  function Inside(c: Code, verbatim: bool): bool {
    if c.Plain? && Delimiter(c.b) then !verbatim else verbatim
  }

  // The state after the first k codes, delimiters opening and closing in turn.
  function Verbatim(codes: seq<Code>, k: nat): bool
    requires k <= |codes|
  {
    if k == 0 then false else Inside(codes[k - 1], Verbatim(codes, k - 1))
  }

  ghost predicate WellFormed(codes: seq<Code>) {
    && (forall k :: 0 <= k < |codes| ==> WellCoded(codes[k], Verbatim(codes, k)))
    && !Verbatim(codes, |codes|)
  }

  // ---------- bytes ----------

  // store_two_bytes
  function TwoBytes(x: nat): seq<nat> { [x / 256, x % 256] }

  function Bytes(c: Code): (s: seq<nat>)
    ensures |s| == match c case Plain(_) => 1 case Pair(_) => 2 case Line(_, _) => 6
  {
    match c
    case Plain(b) => [b]
    case Pair(a) => [a / 256 + 128, a % 256]
    case Line(n, f) => TwoBytes(LINE) + TwoBytes(n) + [f / 256 + 128, f % 256]
  }

  function Encode(codes: seq<Code>): seq<nat> {
    if codes == [] then [] else Encode(codes[..|codes| - 1]) + Bytes(codes[|codes| - 1])
  }

  // The code at the beginning of s, if there is a whole one.
  function Read(s: seq<nat>, verbatim: bool): Option<Code> {
    if s == [] then None
    else if verbatim || s[0] < 128 then Some(Plain(s[0]))
    else if |s| < 2 || s[0] >= 256 || s[1] >= 256 then None
    else
      var a := (s[0] - 128) * 256 + s[1];
      if a != SECTIONS then Some(Pair(a))
      else if |s| < 6 || s[4] < 128 then None
      else Some(Line(256 * s[2] + s[3], 256 * (s[4] - 128) + s[5]))
  }

  // What is read back is what was written, whatever follows it.
  lemma ReadBytes(c: Code, rest: seq<nat>, verbatim: bool)
    requires WellCoded(c, verbatim)
    ensures Read(Bytes(c) + rest, verbatim) == Some(c)
  {
    var s := Bytes(c) + rest;
    match c
    case Plain(b) =>
    case Pair(a) => assert s[0] == a / 256 + 128 && s[1] == a % 256;
    case Line(n, f) =>
      assert s[0] == LINE / 256 && s[1] == LINE % 256 && s[2] == n / 256 && s[3] == n % 256;
      assert s[4] == f / 256 + 128 && s[5] == f % 256;
  }

  // Reading a whole text.
  function Decode(s: seq<nat>, verbatim: bool): Option<seq<Code>>
    decreases |s|
  {
    if s == [] then (if verbatim then None else Some([]))
    else
      match Read(s, verbatim)
      case None => None
      case Some(c) =>
        if |Bytes(c)| > |s| then None
        else
          match Decode(s[|Bytes(c)|..], Inside(c, verbatim))
          case None => None
          case Some(codes) => Some([c] + codes)
  }

  // ... the codes from k on.
  function EncodeFrom(codes: seq<Code>, k: nat): seq<nat>
    requires k <= |codes|
    decreases |codes| - k
  {
    if k == |codes| then [] else Bytes(codes[k]) + EncodeFrom(codes, k + 1)
  }

  lemma {:induction false} EncodeSplit(codes: seq<Code>, k: nat)
    requires k <= |codes|
    ensures Encode(codes) == Encode(codes[..k]) + EncodeFrom(codes, k)
    decreases |codes| - k
  {
    if k == |codes| {
      assert codes[..k] == codes;
    } else {
      EncodeSplit(codes, k + 1);
      assert codes[..k + 1][..k] == codes[..k];
      Associative(Encode(codes[..k]), Bytes(codes[k]), EncodeFrom(codes, k + 1));
    }
  }

  lemma DecodeStep(c: Code, rest: seq<nat>, codes: seq<Code>, verbatim: bool)
    requires WellCoded(c, verbatim) && Decode(rest, Inside(c, verbatim)) == Some(codes)
    ensures Decode(Bytes(c) + rest, verbatim) == Some([c] + codes)
  {
    ReadBytes(c, rest, verbatim);
    assert (Bytes(c) + rest)[|Bytes(c)|..] == rest;
  }

  lemma {:induction false} DecodeFrom(codes: seq<Code>, k: nat)
    requires WellFormed(codes) && k <= |codes|
    ensures Decode(EncodeFrom(codes, k), Verbatim(codes, k)) == Some(codes[k..])
    decreases |codes| - k
  {
    if k < |codes| {
      DecodeFrom(codes, k + 1);
      DecodeStep(codes[k], EncodeFrom(codes, k + 1), codes[k + 1..], Verbatim(codes, k));
      assert codes[k..] == [codes[k]] + codes[k + 1..];
    } else {
      assert codes[k..] == [];
    }
  }

  // The byte code loses nothing.
  lemma RoundTrip(codes: seq<Code>)
    requires WellFormed(codes)
    ensures Decode(Encode(codes), false) == Some(codes)
  {
    EncodeSplit(codes, 0);
    assert codes[..0] == [] && codes[0..] == codes && [] + EncodeFrom(codes, 0) == EncodeFrom(codes, 0);
    DecodeFrom(codes, 0);
  }
}
