// The data the formatter works on: syntactic categories, math modes, tokens,
// scraps, and the token memory in which the translated texts are laid down.
module Scraps {


  // Syntactic categories.  Zero pads the window beyond the last scrap.
  datatype Cat =
    | Zero | Exp | Unop | Binop | Unorbinop | Cast | Question | Lbrace | Rbrace | DeclHead
    | Comma | Lpar | Rpar | Prelangle | Prerangle | Langle | Colcol | Base | Decl | StructHead
    | Stmt | Function | FnDecl | ElseLike | Semi | Colon | Tag | IfHead | ElseHead | IfClause
    | Lproc | Rproc | Insert | SectionScrap | Dead | PublicLike | OperatorLike | NewLike
    | CatchLike | ForLike | DoLike | IfLike | RawRpar | RawUnorbin | ConstLike | RawInt
    | IntLike | CaseLike | SizeofLike | StructLike | TypedefLike | DefineLike | BeginArg | EndArg

  // Math modes; a scrap whose text is indifferent to the mode is Maybe.
  datatype Math = Maybe | Yes | No

  // A token is a character or formatting code below 256, a name, or a
  // reference to another text.  Pack gives its sixteen-bit form.
  datatype Token =
    | Ch(code: nat)
    | Id(name: nat)
    | Res(name: nat)
    | Section(name: nat)
    | Text(text: nat)
    | Inner(text: nat)

  const ID_FLAG: nat := 10240

  function Pack(t: Token): nat {
    match t
    case Ch(c) => c
    case Id(n) => ID_FLAG + n
    case Res(n) => 2 * ID_FLAG + n
    case Section(n) => 3 * ID_FLAG + n
    case Text(n) => 4 * ID_FLAG + n
    case Inner(n) => 5 * ID_FLAG + n
  }

  function Unpack(w: nat): Token {
    var r := w % ID_FLAG;
    match w / ID_FLAG
    case 1 => Id(r)
    case 2 => Res(r)
    case 3 => Section(r)
    case 4 => Text(r)
    case 5 => Inner(r)
    case _ => Ch(r)
  }

  predicate Packable(t: Token) {
    match t
    case Ch(c) => c < ID_FLAG
    case Id(n) => n < ID_FLAG
    case Res(n) => n < ID_FLAG
    case Section(n) => n < ID_FLAG
    case Text(n) => n < ID_FLAG
    case Inner(n) => n < ID_FLAG
  }

  // The flag arithmetic is lossless, and every packed token fits sixteen bits.
  lemma PackRoundTrip(t: Token)
    requires Packable(t)
    ensures Unpack(Pack(t)) == t && Pack(t) < 0x1_0000
  {
    var r := match t
      case Ch(c) => c case Id(n) => n case Res(n) => n
      case Section(n) => n case Text(n) => n case Inner(n) => n;
    var q := match t
      case Ch(_) => 0 case Id(_) => 1 case Res(_) => 2
      case Section(_) => 3 case Text(_) => 4 case Inner(_) => 5;
    assert Pack(t) == q * ID_FLAG + r;
    assert Pack(t) / ID_FLAG == q && Pack(t) % ID_FLAG == r;
  }

  const SPACE := Ch(32)
  const DOLLAR := Ch(36)
  const COMMA := Ch(44)
  const FIVE := Ch(53)
  const NINE := Ch(57)
  const LESS := Ch(60)
  const GREATER := Ch(62)
  const BACKSLASH := Ch(92)
  const OPEN := Ch(123)
  const CLOSE := Ch(125)
  const NOOP := Ch(127)
  const MATH_REL := Ch(134)
  const BIG_CANCEL := Ch(136)
  const CANCEL := Ch(137)
  const INDENT := Ch(138)
  const OUTDENT := Ch(139)
  const OPT := Ch(140)
  const BACKUP := Ch(141)
  const BREAK_SPACE := Ch(142)
  const FORCE := Ch(143)
  const BIG_FORCE := Ch(144)
  const INSERTED := Ch(148)

  // Where TeX may meet a formatting code: line breaks and what else shapes the page outside math
  // only, braces, relations and angles inside only.
  function Belongs(t: Token): Math {
    if !t.Ch? then Maybe
    else if t.code == FORCE.code || t.code == BIG_FORCE.code || t.code == BREAK_SPACE.code
            || t.code == BACKUP.code || t.code == CANCEL.code then No
    else if t.code == OPEN.code || t.code == CLOSE.code || t.code == MATH_REL.code
            || t.code == LESS.code || t.code == GREATER.code then Yes
    else Maybe
  }

  datatype Scrap = Scrap(cat: Cat, init: Math, fin: Math, trans: nat)

  // Token memory and text directory.  Text t occupies mem[starts[t]..starts[t+1]];
  // the last entry of starts is the next free position, and memory from there on
  // holds whatever was left in it.
  datatype Arena = Arena(mem: seq<Token>, starts: seq<nat>)
  {
    // The texts lie one after the other in memory, each referring to earlier ones only.
    ghost predicate Valid() {
      && |starts| >= 1 && Free() <= |mem|
      && (forall t {:trigger TextAt(t)} {:trigger Placed(t)} :: 0 <= t < Count() ==> Placed(t))
    }

    ghost predicate Placed(t: nat)
      requires t < Count()
    {
      starts[t] <= starts[t + 1] <= Free() && RefsBelow(TextAt(t), t)
    }

    function Count(): nat { if |starts| >= 1 then |starts| - 1 else 0 }

    function Free(): nat
      requires |starts| >= 1
    { starts[|starts| - 1] }

    function TextAt(t: nat): seq<Token> {
      if t < Count() && starts[t] <= starts[t + 1] <= |mem| then mem[starts[t]..starts[t + 1]] else []
    }

    // Close a text whose tokens are toks, laid down from Free() on.
    function Append(toks: seq<Token>): Arena
      requires |starts| >= 1 && Free() + |toks| <= |mem|
    {
      Arena(mem[..Free()] + toks + mem[Free() + |toks|..], starts + [Free() + |toks|])
    }
  }

  // Every reference among toks is to a text earlier than t.
  ghost predicate RefsBelow(toks: seq<Token>, t: nat) {
    forall i :: 0 <= i < |toks| ==> RefBelow(toks[i], t)
  }

  predicate RefBelow(tok: Token, t: nat) {
    match tok case Text(u) => u < t case Inner(u) => u < t case _ => true
  }

  // Closing a text leaves the earlier ones alone.
  lemma AppendKeepsTexts(a: Arena, toks: seq<Token>)
    requires a.Valid() && a.Free() + |toks| <= |a.mem|
    requires RefsBelow(toks, a.Count())
    ensures var b := a.Append(toks);
            b.Valid() && b.Count() == a.Count() + 1 && |b.mem| == |a.mem|
    ensures forall t :: 0 <= t < a.Count() ==> a.Append(toks).TextAt(t) == a.TextAt(t)
    ensures a.Append(toks).TextAt(a.Count()) == toks
  {
    var b := a.Append(toks);
    assert b.TextAt(a.Count()) == toks;
    forall t | 0 <= t < a.Count()
      ensures b.TextAt(t) == a.TextAt(t) && b.Placed(t)
    {
      assert a.Placed(t);
    }
    assert b.Placed(a.Count());
  }
}
