// The productions as the documentation of CWEAVE prints them, one line a rule, and the proof
// that the program reduces by the first rule of that list that applies.
module Grammar {
  import opened Wrappers
  import opened Scraps
  import opened Productions

  // The category of the new scrap: given, or that of a scrap of the window.
  datatype Becomes =
    | New(c: Cat)
    | Like(i: nat)

  // The right-hand side of a rule: scraps at..at+k of the window become one, with the text given,
  // and the scrap numbered reserve has its name reserved.  Which tokens wait for the math mode to
  // be right, and how far the cursor moves, is not printed.
  datatype Rule = Rule(number: nat, at: nat, k: nat, cat: Becomes, text: Layout, reserve: Option<nat>)

  // The scraps after the first.
  datatype Rest = Rest(c1: Cat, c2: Cat, c3: Cat)

  // The rule r if what it asks for is there, the next one otherwise.
  function Or(asked: bool, r: Rule, next: Option<Rule>): Option<Rule> {
    if asked then Some(r) else next
  }

  // A rule that replaces the first k scraps.
  function R(n: nat, asked: bool, k: nat, cat: Becomes, text: Layout, next: Option<Rule>): Option<Rule> {
    Or(asked, Rule(n, 0, k, cat, text, None), next)
  }

  // Texts: juxtaposed scraps, scraps with a space after the first, and those with more between.
  function Join1(): Layout { Sub(0, End) }

  function Join2(): Layout { Sub(0, Sub(1, End)) }

  function Join3(): Layout { Sub(0, Sub(1, Sub(2, End))) }

  function Sp2(): Layout { Sub(0, Raw(SPACE, Sub(1, End))) }

  function Sp3(): Layout { Sub(0, Raw(SPACE, Sub(1, Sub(2, End)))) }

  function Mid(tok: Token): Layout { Sub(0, Raw(tok, Sub(1, End))) }

  function ThinMid(): Layout { Sub(0, Raw(BACKSLASH, Raw(COMMA, Sub(1, End)))) }

  function InIn(): Layout { Raw(INDENT, Raw(INDENT, End)) }

  function Opt9(): Layout { Raw(OPT, Raw(NINE, End)) }

  // A line of its own: the first scrap, and the second indented below it.
  function Lines(rest: Layout): Layout {
    Raw(FORCE, Sub(0, Raw(INDENT, Raw(BREAK_SPACE, Sub(1, Raw(OUTDENT, rest))))))
  }

  // The same where the second is a block, whose brace stays on the line.
  function Blocks(last: Token, rest: Layout): Layout {
    Raw(FORCE, Sub(0, Raw(BREAK_SPACE, Raw(NOOP, Raw(CANCEL, Sub(1, Raw(last, rest)))))))
  }

  predicate Undecided(c0: Cat) {
    c0 == Semi || c0 == RawInt || c0 == RawUnorbin || c0 == RawRpar || c0 == ConstLike
  }

  // The rules whose first scrap may be any.  A semicolon and the categories that are still to be
  // decided are reduced before the end of an argument reaches them.
  function General(c0: Cat, w: Rest, next: Option<Rule>): Option<Rule> {
    if Undecided(c0) then Glue(w, next)
    else if c0 == BeginArg then R(110, w.c1 == EndArg, 2, New(Exp), Join2(), Glue(w, next))
    else R(111, w.c1 == EndArg, 2, New(EndArg), Join2(), Glue(w, next))
  }

  function Glue(w: Rest, next: Option<Rule>): Option<Rule> {
    R(0, w.c1 == Insert, 2, Like(0), Join2(),
    Or(w.c1 != Zero && w.c2 == Insert, Rule(0, 1, 2, Like(1), Sub(1, Sub(2, End)), None),
    Or(w.c1 != Zero && w.c2 != Zero && w.c3 == Insert, Rule(0, 2, 2, Like(2), Sub(2, Sub(3, End)), None),
    next)))
  }

  function ExpPrinted(w: Rest): Option<Rule> {
    R(1, w.c1 in {Lbrace, IntLike, Decl}, 1, New(FnDecl), Sub(0, InIn()),
    R(2, w.c1 == Unop, 2, New(Exp), Join2(),
    R(3, w.c1 in {Binop, Unorbinop} && w.c2 == Exp, 3, New(Exp), Join3(),
    ExpJoinRest(w))))
  }

  function ExpJoinRest(w: Rest): Option<Rule> {
    R(4, w.c1 == Comma && w.c2 == Exp, 3, New(Exp), Sub(0, Sub(1, Raw(OPT, Raw(NINE, Sub(2, End))))),
    R(5, w.c1 in {Exp, Cast}, 2, New(Exp), Join2(),
    ExpRest(w)))
  }

  function ExpRest(w: Rest): Option<Rule> {
    R(6, w.c1 == Semi, 2, New(Stmt), Join2(),
    R(7, w.c1 == Colon, 2, New(Tag), Join2(),
    ExpBaseRest(w)))
  }

  function ExpBaseRest(w: Rest): Option<Rule> {
    R(8, w.c1 == Base && w.c2 == IntLike && w.c3 == Comma, 4, New(Base),
       Sub(1, Raw(SPACE, Sub(2, Sub(3, Opt9())))),
    R(9, w.c1 == Base && w.c2 == IntLike && w.c3 == Lbrace, 3, New(Exp),
       Sub(0, Raw(SPACE, Sub(1, Raw(SPACE, Sub(2, End))))),
    R(10, w.c1 == Rbrace, 1, New(Stmt), Join1(),
    None)))
  }

  function LparPrinted(w: Rest): Option<Rule> {
    R(11, w.c1 in {Exp, Unorbinop} && w.c2 == Rpar, 3, New(Exp), Join3(),
    R(12, w.c1 == Rpar, 2, New(Exp), ThinMid(),
    LparRest(w)))
  }

  function LparRest(w: Rest): Option<Rule> {
    R(13, w.c1 in {DeclHead, IntLike, Exp} && w.c2 == Rpar, 3, New(Cast), Join3(),
    R(14, w.c1 in {DeclHead, IntLike, Exp} && w.c2 == Comma, 3, New(Lpar), Sub(0, Sub(1, Sub(2, Opt9()))),
    R(15, w.c1 in {Stmt, Decl}, 2, New(Lpar), Sub(0, Sub(1, Raw(SPACE, End))),
    None)))
  }

  function QuestionPrinted(w: Rest): Option<Rule> {
    R(16, w.c1 == Exp && w.c2 == Colon, 3, New(Binop), Join3(), None)
  }

  function UnopPrinted(w: Rest): Option<Rule> {
    R(17, w.c1 in {Exp, IntLike}, 2, Like(1), Join2(), None)
  }

  function UnorbinopPrinted(w: Rest): Option<Rule> {
    R(18, w.c1 in {Exp, IntLike}, 2, Like(1), Raw(OPEN, Sub(0, Raw(CLOSE, Sub(1, End)))),
    R(19, w.c1 == Binop, 2, New(Binop),
       Raw(MATH_REL, Sub(0, Raw(OPEN, Sub(1, Raw(CLOSE, Raw(CLOSE, End)))))),
    None))
  }

  function BinopPrinted(w: Rest): Option<Rule> {
    R(20, w.c1 == Binop, 2, New(Binop),
       Raw(MATH_REL, Raw(OPEN, Sub(0, Raw(CLOSE, Raw(OPEN, Sub(1, Raw(CLOSE, Raw(CLOSE, End)))))))),
    None)
  }

  function CastPrinted(w: Rest): Option<Rule> {
    R(21, w.c1 == Exp, 2, New(Exp), Sp2(),
    R(22, w.c1 == Semi, 1, New(Exp), Join1(),
    None))
  }

  function SizeofLikePrinted(w: Rest): Option<Rule> {
    R(23, w.c1 == Cast, 2, New(Exp), Join2(),
    R(24, w.c1 == Exp, 2, New(Exp), Sp2(),
    None))
  }

  function IntLikePrinted(w: Rest): Option<Rule> {
    R(25, w.c1 in {IntLike, StructLike}, 2, Like(1), Sp2(),
    R(26, w.c1 == Exp && w.c2 in {RawInt, StructLike}, 2, New(IntLike), Join2(),
    R(27, w.c1 in {Exp, Unorbinop}, 1, New(DeclHead), Sub(0, Raw(SPACE, End)),
    R(27, w.c1 == Semi, 1, New(DeclHead), Join1(),
    IntLikeRest(w)))))
  }

  function IntLikeRest(w: Rest): Option<Rule> {
    R(28, w.c1 == Colon, 1, New(DeclHead), Sub(0, Raw(SPACE, End)),
    Or(w.c1 == Prelangle, Rule(29, 1, 1, New(Langle), Sub(1, End), None),
    R(30, w.c1 == Colcol && w.c2 in {Exp, IntLike}, 3, Like(2), Join3(),
    R(31, w.c1 == Cast && w.c2 == Lbrace, 2, New(FnDecl), Sub(0, Sub(1, InIn())),
    R(32, w.c1 == Cast, 2, New(IntLike), Join2(),
    None)))))
  }

  function DeclHeadPrinted(w: Rest): Option<Rule> {
    R(33, w.c1 == Comma, 2, New(DeclHead), Sub(0, Sub(1, Raw(SPACE, End))),
    R(34, w.c1 == Unorbinop, 2, New(DeclHead), Sub(0, Raw(OPEN, Sub(1, Raw(CLOSE, End)))),
    R(35, w.c1 == Exp && w.c2 !in {Lpar, Exp}, 2, New(DeclHead), Join2(),
    DeclHeadRest(w))))
  }

  function DeclHeadRest(w: Rest): Option<Rule> {
    R(36, w.c1 in {Binop, Colon} && w.c2 == Exp && w.c3 in {Comma, Semi, Rpar}, 3, New(DeclHead), Join3(),
    DeclHeadLast(w))
  }

  function DeclHeadLast(w: Rest): Option<Rule> {
    R(37, w.c1 == Cast, 2, New(DeclHead), Join2(),
    R(38, w.c1 == IntLike && w.c2 != Colcol, 1, New(FnDecl), Sub(0, InIn()),
    R(38, w.c1 in {Lbrace, Decl}, 1, New(FnDecl), Sub(0, InIn()),
    R(39, w.c1 == Semi, 2, New(Decl), Join2(),
    None))))
  }

  function DeclPrinted(w: Rest): Option<Rule> {
    R(40, w.c1 == Decl, 2, New(Decl), Mid(FORCE),
    R(41, w.c1 in {Stmt, Function}, 2, Like(1), Mid(BIG_FORCE),
    None))
  }

  function TypedefPrinted(w: Rest): Option<Rule> {
    Or(w.c1 == DeclHead && w.c2 == Exp && w.c3 !in {Lpar, Exp},
       Rule(42, 1, 2, New(DeclHead), Sub(1, Sub(2, End)), Some(2)),
    Or(w.c1 == DeclHead && w.c2 == IntLike, Rule(42, 1, 2, New(DeclHead), Sub(1, Sub(2, End)), Some(2)),
    R(43, w.c1 == DeclHead && w.c2 == Semi, 3, New(Decl), Sp2(),
    None)))
  }

  function StructPrinted(w: Rest): Option<Rule> {
    R(44, w.c1 == Lbrace, 2, New(StructHead), Sp2(),
    Or(w.c1 in {Exp, IntLike} && w.c2 == Semi, Rule(45, 0, 3, New(DeclHead), Sp2(), Some(1)),
    Or(w.c1 in {Exp, IntLike} && w.c2 == Lbrace, Rule(46, 0, 3, New(StructHead),
         Sub(0, Raw(SPACE, Sub(1, Raw(SPACE, Sub(2, End))))), Some(1)),
    Or(w.c1 in {Exp, IntLike} && w.c2 == Colon, Rule(47, 2, 1, New(Base), Sub(2, End), None),
    R(48, w.c1 in {Exp, IntLike} && w.c2 != Base, 2, New(IntLike), Sp2(),
    None)))))
  }

  function StructHeadPrinted(w: Rest): Option<Rule> {
    R(49, w.c1 in {Decl, Stmt, Function} && w.c2 == Rbrace, 3, New(IntLike),
       Sub(0, Raw(INDENT, Raw(FORCE, Sub(1, Raw(OUTDENT, Raw(FORCE, Sub(2, End))))))),
    R(50, w.c1 == Rbrace, 2, New(IntLike), ThinMid(),
    None))
  }

  function FnDeclPrinted(w: Rest): Option<Rule> {
    R(51, w.c1 == Decl, 2, New(FnDecl), Mid(FORCE),
    R(52, w.c1 == Stmt, 2, New(Function), Sub(0, Raw(OUTDENT, Raw(OUTDENT, Raw(FORCE, Sub(1, End))))),
    None))
  }

  function FunctionPrinted(w: Rest): Option<Rule> {
    R(53, w.c1 in {Stmt, Decl, Function}, 2, Like(1), Mid(BIG_FORCE), None)
  }

  function LbracePrinted(w: Rest): Option<Rule> {
    R(54, w.c1 == Rbrace, 2, New(Stmt), ThinMid(),
    R(55, w.c1 in {Stmt, Decl, Function} && w.c2 == Rbrace, 3, New(Stmt),
       Raw(FORCE, Sub(0, Raw(INDENT, Raw(FORCE, Sub(1, Raw(FORCE, Raw(BACKUP, Sub(2,
       Raw(OUTDENT, Raw(FORCE, End)))))))))),
    R(56, w.c1 == Exp && w.c2 == Rbrace, 3, New(Exp), Join3(),
    R(56, w.c1 == Exp && w.c2 == Comma && w.c3 == Rbrace, 4, New(Exp), Sub(0, Sub(1, Sub(2, Sub(3, End)))),
    None))))
  }

  function IfLikePrinted(w: Rest): Option<Rule> {
    R(57, w.c1 == Exp, 2, New(IfClause), Sp2(), None)
  }

  function ForLikePrinted(w: Rest): Option<Rule> {
    R(58, w.c1 == Exp, 2, New(ElseLike), Sp2(), None)
  }

  function ElseLikePrinted(w: Rest): Option<Rule> {
    R(59, w.c1 == Lbrace, 1, New(ElseHead), Join1(),
    R(60, w.c1 == Stmt, 2, New(Stmt), Lines(Raw(FORCE, End)),
    None))
  }

  function ElseHeadPrinted(w: Rest): Option<Rule> {
    R(61, w.c1 in {Stmt, Exp}, 2, New(Stmt), Blocks(BREAK_SPACE, End), None)
  }

  function DoLikePrinted(w: Rest): Option<Rule> {
    R(69, w.c1 == Stmt && w.c2 == ElseLike && w.c3 == Semi, 4, New(Stmt),
       Sub(0, Raw(BREAK_SPACE, Raw(NOOP, Raw(CANCEL, Sub(1, Raw(CANCEL, Raw(NOOP,
       Raw(BREAK_SPACE, Sub(2, Sub(3, End)))))))))),
    None)
  }

  function IfClausePrinted(w: Rest): Option<Rule> {
    R(62, w.c1 == Lbrace, 1, New(IfHead), Join1(),
    R(63, w.c1 == Stmt && w.c2 == ElseLike && w.c3 == IfLike, 4, New(IfLike),
       Lines(Raw(FORCE, Sub(2, Raw(SPACE, Sub(3, End))))),
    R(64, w.c1 == Stmt && w.c2 == ElseLike, 3, New(ElseLike), Lines(Raw(FORCE, Sub(2, End))),
    R(65, w.c1 == Stmt, 1, New(ElseLike), Join1(),
    None))))
  }

  function IfHeadPrinted(w: Rest): Option<Rule> {
    R(66, w.c1 in {Stmt, Exp} && w.c2 == ElseLike && w.c3 == IfLike, 4, New(IfLike),
       Blocks(FORCE, Sub(2, Raw(SPACE, Sub(3, End)))),
    R(67, w.c1 in {Stmt, Exp} && w.c2 == ElseLike, 3, New(ElseLike), Blocks(FORCE, Sub(2, End)),
    R(68, w.c1 in {Stmt, Exp}, 1, New(ElseHead), Join1(),
    None)))
  }

  function CasePrinted(w: Rest): Option<Rule> {
    R(70, w.c1 == Semi, 2, New(Stmt), Join2(),
    R(71, w.c1 == Colon, 2, New(Tag), Join2(),
    R(72, w.c1 == Exp && w.c2 == Semi, 3, New(Stmt), Sp3(),
    R(73, w.c1 == Exp && w.c2 == Colon, 3, New(Tag), Sp3(),
    None))))
  }

  function TagPrinted(w: Rest): Option<Rule> {
    R(74, w.c1 == Tag, 2, New(Tag), Mid(BREAK_SPACE),
    R(75, w.c1 in {Stmt, Decl, Function}, 2, Like(1),
       Raw(FORCE, Raw(BACKUP, Sub(0, Raw(BREAK_SPACE, Sub(1, End))))),
    None))
  }

  function StmtPrinted(w: Rest, forceLines: bool): Option<Rule> {
    R(76, w.c1 == Stmt, 2, Like(1), Mid(if forceLines then FORCE else BREAK_SPACE),
    R(76, w.c1 in {Decl, Function}, 2, Like(1), Mid(BIG_FORCE),
    None))
  }

  function SemiPrinted(w: Rest): Option<Rule> {
    R(77, true, 1, New(Stmt), Raw(SPACE, Sub(0, End)), None)
  }

  function LprocPrinted(w: Rest): Option<Rule> {
    R(78, w.c1 in {IfLike, ElseLike, DefineLike}, 2, New(Lproc), Join2(),
    R(79, w.c1 == Rproc, 2, New(Insert), Join2(),
    LprocRest(w)))
  }

  function LprocRest(w: Rest): Option<Rule> {
    R(80, w.c1 in {Exp, Function} && w.c2 == Rproc, 3, New(Insert), Sp3(),
    R(80, w.c1 == Exp && w.c2 == Exp && w.c3 == Rproc, 4, New(Insert),
       Sub(0, Raw(SPACE, Sub(1, Raw(SPACE, Raw(BACKSLASH, Raw(FIVE, Sub(2, Sub(3, End)))))))),
    None))
  }

  function SectionScrapPrinted(w: Rest): Option<Rule> {
    R(81, w.c1 == Semi, 2, New(Stmt), Sub(0, Sub(1, Raw(FORCE, End))),
    R(82, true, 1, New(Exp), Join1(), None))
  }

  function InsertPrinted(w: Rest): Option<Rule> {
    R(83, w.c1 != Zero, 2, Like(1), Join2(), None)
  }

  function PrelanglePrinted(w: Rest): Option<Rule> {
    R(84, true, 1, New(Binop), Raw(LESS, End), None)
  }

  function PreranglePrinted(w: Rest): Option<Rule> {
    R(85, true, 1, New(Binop), Raw(GREATER, End), None)
  }

  function PublicLikePrinted(w: Rest): Option<Rule> {
    R(90, w.c1 == Colon, 2, New(Tag), Join2(),
    R(91, true, 1, New(IntLike), Join1(), None))
  }

  function ColcolPrinted(w: Rest): Option<Rule> {
    R(92, w.c1 in {Exp, IntLike}, 2, Like(1), Join2(), None)
  }

  function LanglePrinted(w: Rest): Option<Rule> {
    R(86, w.c1 == Exp && w.c2 == Prerangle, 3, New(Cast), Join3(),
    R(87, w.c1 == Prerangle, 2, New(Cast), ThinMid(),
    R(88, w.c1 in {DeclHead, IntLike} && w.c2 == Prerangle, 3, New(Cast), Join3(),
    R(89, w.c1 in {DeclHead, IntLike} && w.c2 == Comma, 3, New(Langle), Sub(0, Sub(1, Sub(2, Opt9()))),
    None))))
  }

  function NewPrinted(w: Rest): Option<Rule> {
    R(93, w.c1 == Exp, 2, New(NewLike), Sp2(),
    R(93, w.c1 == RawInt && w.c2 !in {Prelangle, Langle}, 2, New(NewLike), Sp2(),
    R(94, w.c1 in {RawUnorbin, Colcol}, 2, New(NewLike), Join2(),
    R(95, w.c1 == Cast, 2, New(Exp), Join2(),
    R(96, w.c1 !in {Lpar, RawInt, StructLike}, 1, New(Exp), Join1(),
    None)))))
  }

  function OperatorLikePrinted(w: Rest): Option<Rule> {
    R(97, w.c1 in {Binop, Unop, Unorbinop} && w.c2 != Binop, 2, New(Exp), Sub(0, Raw(OPEN, Sub(1, Raw(CLOSE, End)))),
    R(98, w.c1 in {NewLike, SizeofLike}, 2, New(Exp), Sp2(),
    R(99, true, 1, New(NewLike), Join1(), None)))
  }

  function CatchLikePrinted(w: Rest): Option<Rule> {
    R(100, w.c1 in {Cast, Exp}, 2, New(FnDecl), Sub(0, Sub(1, InIn())), None)
  }

  function BasePrinted(w: Rest): Option<Rule> {
    R(101, w.c1 == PublicLike && w.c2 == Exp && w.c3 == Comma, 4, New(Base),
       Sub(0, Sub(1, Raw(SPACE, Sub(2, Sub(3, End))))),
    Or(w.c1 == PublicLike && w.c2 == Exp, Rule(102, 1, 2, New(IntLike), Sub(1, Raw(SPACE, Sub(2, End))), None),
    None))
  }

  function RawRparPrinted(w: Rest): Option<Rule> {
    R(103, w.c1 == ConstLike && w.c2 in {Semi, Lbrace, Comma, Binop, ConstLike}, 2, New(RawRpar), Sp2(),
    R(104, true, 1, New(Rpar), Join1(), None))
  }

  function RawUnorbinPrinted(w: Rest): Option<Rule> {
    R(105, w.c1 == ConstLike, 2, New(RawUnorbin), Sub(0, Sub(1, Raw(BACKSLASH, Raw(SPACE, End)))),
    R(106, true, 1, New(Unorbinop), Join1(), None))
  }

  function ConstLikePrinted(w: Rest): Option<Rule> {
    R(107, true, 1, New(IntLike), Join1(), None)
  }

  function RawIntPrinted(w: Rest): Option<Rule> {
    R(108, w.c1 == Lpar, 2, New(Exp), Join2(),
    R(109, true, 1, New(IntLike), Join1(), None))
  }

  // The rules whose first scrap is a c0, in the order of their numbers.
  function Listed(c0: Cat, w: Rest, forceLines: bool): Option<Rule> {
    match c0
    case Exp => ExpPrinted(w)
    case Lpar => LparPrinted(w)
    case Question => QuestionPrinted(w)
    case Unop => UnopPrinted(w)
    case Unorbinop => UnorbinopPrinted(w)
    case Binop => BinopPrinted(w)
    case Cast => CastPrinted(w)
    case SizeofLike => SizeofLikePrinted(w)
    case IntLike => IntLikePrinted(w)
    case DeclHead => DeclHeadPrinted(w)
    case Decl => DeclPrinted(w)
    case TypedefLike => TypedefPrinted(w)
    case StructLike => StructPrinted(w)
    case StructHead => StructHeadPrinted(w)
    case FnDecl => FnDeclPrinted(w)
    case Function => FunctionPrinted(w)
    case Lbrace => LbracePrinted(w)
    case IfClause => IfClausePrinted(w)
    case IfHead => IfHeadPrinted(w)
    case CaseLike => CasePrinted(w)
    case Tag => TagPrinted(w)
    case Stmt => StmtPrinted(w, forceLines)
    case Semi => SemiPrinted(w)
    case Lproc => LprocPrinted(w)
    case Langle => LanglePrinted(w)
    case NewLike => NewPrinted(w)
    case OperatorLike => OperatorLikePrinted(w)
    case SectionScrap => SectionScrapPrinted(w)
    case Insert => InsertPrinted(w)
    case Prelangle => PrelanglePrinted(w)
    case Prerangle => PreranglePrinted(w)
    case PublicLike => PublicLikePrinted(w)
    case Colcol => ColcolPrinted(w)
    case IfLike => IfLikePrinted(w)
    case ForLike => ForLikePrinted(w)
    case ElseLike => ElseLikePrinted(w)
    case ElseHead => ElseHeadPrinted(w)
    case DoLike => DoLikePrinted(w)
    case CatchLike => CatchLikePrinted(w)
    case Base => BasePrinted(w)
    case RawRpar => RawRparPrinted(w)
    case RawUnorbin => RawUnorbinPrinted(w)
    case ConstLike => ConstLikePrinted(w)
    case RawInt => RawIntPrinted(w)
    case _ => None
  }

  // The text of a layout, whatever the mode its tokens ask for.
  function Plainly(l: Layout): Layout {
    match l
    case End => End
    case Sub(i, r) => Sub(i, Plainly(r))
    case Big(t, r) => Raw(t, Plainly(r))
    case Raw(t, r) => Raw(t, Plainly(r))
  }

  // The text that p writes.
  function Written(p: Production): Layout
    requires p.Match?
  {
    if p.keep then Sub(p.at, End) else Plainly(p.layout)
  }

  // p does what r says on a window that begins with c0.
  predicate Obeys(p: Production, r: Option<Rule>, c0: Cat, w: Rest) {
    if r.None? then p.NoMatch?
    else
      && p.Match? && p.number == r.value.number && p.at == r.value.at && p.k == r.value.k
      && p.cat == (match r.value.cat case New(c) => c case Like(i) => Nth(c0, w.c1, w.c2, w.c3, i))
      && Written(p) == r.value.text && p.reserve == r.value.reserve
  }

  // Where the program does not follow the printed rule r.
  predicate Misprinted(r: Option<Rule>, w: Rest) {
    r.Some? &&
    var n := r.value.number;
    n == 8 || n == 43 || n == 45 || n == 61 || n == 79 || n == 80 || n == 108
    || (n == 99 && (w.c1 == Binop || w.c1 == Unop || w.c1 == Unorbinop))
  }

  // What it does instead: the class of 8, the semicolon of 45 and the parenthesis of 108 stay,
  // 43 writes the semicolon too, 61 ends with a line break, 79 and 80 mark what they insert, and
  // where 97 waits for an operator to be whole, 99 waits too.
  function Corrected(r: Option<Rule>, w: Rest): Option<Rule> {
    if !Misprinted(r, w) then r
    else
      match r.value.number
      case 8 => Some(r.value.(at := 1, k := 3))
      case 43 => Some(r.value.(text := Sp3()))
      case 45 => Some(r.value.(k := 2))
      case 61 => Some(r.value.(text := Blocks(FORCE, End)))
      case 99 => None
      case 108 => Some(r.value.(k := 1, text := Join1()))
      case _ => Some(r.value.(text := Raw(INSERTED, r.value.text)))
  }

  // The rule for a window: those for any first scrap are tried before its own.
  function RuleFor(c0: Cat, w: Rest, forceLines: bool): Option<Rule> {
    General(c0, w, Listed(c0, w, forceLines))
  }

  // p does what r says, but for the misprints, where it does what the corrected rule says.
  predicate Follows(p: Production, r: Option<Rule>, c0: Cat, w: Rest) {
    && Obeys(p, Corrected(r, w), c0, w)
    && (Obeys(p, r, c0, w) <==> !Misprinted(r, w))
  }

  // What distinguishes the misprinted rules from the corrected ones.
  predicate Garbled(r: Option<Rule>) {
    r.Some? ==>
      var n := r.value.number;
      && (n == 8 ==> r.value.k == 4) && (n == 43 ==> r.value.text == Sp2())
      && (n == 45 ==> r.value.k == 3) && (n == 61 ==> r.value.text == Blocks(BREAK_SPACE, End))
      && (n == 79 || n == 80 ==> r.value.text.Sub?) && (n == 108 ==> r.value.k == 2)
  }

  lemma AsCorrected(p: Production, r: Option<Rule>, c0: Cat, w: Rest)
    requires Obeys(p, Corrected(r, w), c0, w) && Garbled(r)
    ensures Follows(p, r, c0, w)
  {
  }

  lemma AsPrinted(p: Production, r: Option<Rule>, c0: Cat, w: Rest)
    requires Obeys(p, r, c0, w) && !Misprinted(r, w)
    ensures Follows(p, r, c0, w)
  {
  }

  lemma PlainlyBase()
    ensures Plainly(Sub(1, Big(SPACE, Sub(2, Sub(3, OptBreak(End)))))) == Sub(1, Raw(SPACE, Sub(2, Sub(3, Opt9()))))
  {
    assert Plainly(Sub(3, OptBreak(End))) == Sub(3, Opt9());
  }

  lemma ExpBaseFollows(w: Rest, p: Production, r: Option<Rule>)
    requires p == ExpBase(w.c2, w.c3) && r == ExpBaseRest(w) && w.c1 == Base
    ensures Follows(p, r, Exp, w)
  {
    PlainlyBase();
    AsCorrected(p, r, Exp, w);
  }

  lemma ExpBaseRestFollows(w: Rest, p: Production, r: Option<Rule>)
    requires p == ExpClosing(w.c1, w.c2, w.c3) && r == ExpBaseRest(w) && w.c1 !in {Semi, Colon}
    ensures Follows(p, r, Exp, w)
  {
    if w.c1 == Base { ExpBaseFollows(w, p, r); } else { AsCorrected(p, r, Exp, w); }
  }

  lemma ExpRestFollows(w: Rest, p: Production, r: Option<Rule>)
    requires p == ExpClosing(w.c1, w.c2, w.c3) && r == ExpRest(w)
    ensures Follows(p, r, Exp, w)
  {
    if w.c1 in {Semi, Colon} { AsCorrected(p, r, Exp, w); }
    else { ExpBaseRestFollows(w, p, r); }
  }

  lemma ExpJoinRestFollows(w: Rest, p: Production, r: Option<Rule>)
    requires p == ExpJoining(w.c1, w.c2, w.c3) && r == ExpJoinRest(w)
    ensures Follows(p, r, Exp, w)
  {
    assert Plainly(OptBreak(Sub(2, End))) == Raw(OPT, Raw(NINE, Sub(2, End)));
    if r.Some? && r.value.number <= 5 { AsCorrected(p, r, Exp, w); } else { ExpRestFollows(w, p, r); }
  }

  lemma ExpFollows(w: Rest, p: Production, r: Option<Rule>)
    requires p == ExpRules(w.c1, w.c2, w.c3) && r == ExpPrinted(w)
    ensures Follows(p, r, Exp, w)
  {
    if r.Some? && r.value.number <= 3 { AsCorrected(p, r, Exp, w); } else { ExpJoinRestFollows(w, p, r); }
  }

  lemma LparRestFollows(w: Rest, p: Production, r: Option<Rule>)
    requires p == LparList(w.c1, w.c2, w.c3) && r == LparRest(w)
    ensures Follows(p, r, Lpar, w)
  {
    AsPrinted(p, r, Lpar, w);
  }

  lemma LparFollows(w: Rest, p: Production, r: Option<Rule>)
    requires p == LparRules(w.c1, w.c2, w.c3) && r == LparPrinted(w)
    ensures Follows(p, r, Lpar, w)
  {
    if r.Some? && r.value.number <= 12 { AsPrinted(p, r, Lpar, w); }
    else { LparRestFollows(w, p, r); }
  }

  lemma QuestionFollows(w: Rest, p: Production, r: Option<Rule>)
    requires p == QuestionRules(w.c1, w.c2, w.c3) && r == QuestionPrinted(w)
    ensures Follows(p, r, Question, w)
  {
    AsPrinted(p, r, Question, w);
  }

  lemma UnopFollows(w: Rest, p: Production, r: Option<Rule>)
    requires p == UnopRules(w.c1, w.c2, w.c3) && r == UnopPrinted(w)
    ensures Follows(p, r, Unop, w)
  {
    AsPrinted(p, r, Unop, w);
  }

  lemma UnorbinopFollows(w: Rest, p: Production, r: Option<Rule>)
    requires p == UnorbinopRules(w.c1, w.c2, w.c3) && r == UnorbinopPrinted(w)
    ensures Follows(p, r, Unorbinop, w)
  {
    AsPrinted(p, r, Unorbinop, w);
  }

  lemma BinopFollows(w: Rest, p: Production, r: Option<Rule>)
    requires p == BinopRules(w.c1, w.c2, w.c3) && r == BinopPrinted(w)
    ensures Follows(p, r, Binop, w)
  {
    AsPrinted(p, r, Binop, w);
  }

  lemma CastFollows(w: Rest, p: Production, r: Option<Rule>)
    requires p == CastRules(w.c1, w.c2, w.c3) && r == CastPrinted(w)
    ensures Follows(p, r, Cast, w)
  {
    AsPrinted(p, r, Cast, w);
  }

  lemma SizeofLikeFollows(w: Rest, p: Production, r: Option<Rule>)
    requires p == SizeofLikeRules(w.c1, w.c2, w.c3) && r == SizeofLikePrinted(w)
    ensures Follows(p, r, SizeofLike, w)
  {
    AsPrinted(p, r, SizeofLike, w);
  }

  lemma IntLikeRestFollows(w: Rest, p: Production, r: Option<Rule>)
    requires p == IntLikeQualified(w.c1, w.c2, w.c3) && r == IntLikeRest(w)
    ensures Follows(p, r, IntLike, w)
  {
    AsPrinted(p, r, IntLike, w);
  }

  lemma IntLikeFollows(w: Rest, p: Production, r: Option<Rule>)
    requires p == IntLikeRules(w.c1, w.c2, w.c3) && r == IntLikePrinted(w)
    ensures Follows(p, r, IntLike, w)
  {
    if r.Some? && r.value.number <= 27 { AsPrinted(p, r, IntLike, w); }
    else { IntLikeRestFollows(w, p, r); }
  }

  lemma DeclHeadLastFollows(w: Rest, p: Production, r: Option<Rule>)
    requires p == DeclHeadBody(w.c1, w.c2, w.c3) && r == DeclHeadLast(w)
    ensures Follows(p, r, DeclHead, w)
  {
    AsPrinted(p, r, DeclHead, w);
  }

  lemma DeclHeadRestFollows(w: Rest, p: Production, r: Option<Rule>)
    requires p == DeclHeadClosing(w.c1, w.c2, w.c3) && r == DeclHeadRest(w)
    ensures Follows(p, r, DeclHead, w)
  {
    if r.Some? && r.value.number == 36 { AsPrinted(p, r, DeclHead, w); } else { DeclHeadLastFollows(w, p, r); }
  }

  lemma DeclHeadFollows(w: Rest, p: Production, r: Option<Rule>)
    requires p == DeclHeadRules(w.c1, w.c2, w.c3) && r == DeclHeadPrinted(w)
    ensures Follows(p, r, DeclHead, w)
  {
    if r.Some? && r.value.number <= 35 { AsPrinted(p, r, DeclHead, w); }
    else { DeclHeadRestFollows(w, p, r); }
  }

  lemma DeclFollows(w: Rest, p: Production, r: Option<Rule>)
    requires p == DeclRules(w.c1, w.c2, w.c3) && r == DeclPrinted(w)
    ensures Follows(p, r, Decl, w)
  {
    AsPrinted(p, r, Decl, w);
  }

  lemma TypedefLikeFollows(w: Rest, p: Production, r: Option<Rule>)
    requires p == TypedefLikeRules(w.c1, w.c2, w.c3) && r == TypedefPrinted(w)
    ensures Follows(p, r, TypedefLike, w)
  {
    AsCorrected(p, r, TypedefLike, w);
  }

  lemma StructLikeFollows(w: Rest, p: Production, r: Option<Rule>)
    requires p == StructLikeRules(w.c1, w.c2, w.c3) && r == StructPrinted(w)
    ensures Follows(p, r, StructLike, w)
  {
    AsCorrected(p, r, StructLike, w);
  }

  lemma StructHeadFollows(w: Rest, p: Production, r: Option<Rule>)
    requires p == StructHeadRules(w.c1, w.c2, w.c3) && r == StructHeadPrinted(w)
    ensures Follows(p, r, StructHead, w)
  {
    AsPrinted(p, r, StructHead, w);
  }

  lemma FnDeclFollows(w: Rest, p: Production, r: Option<Rule>)
    requires p == FnDeclRules(w.c1, w.c2, w.c3) && r == FnDeclPrinted(w)
    ensures Follows(p, r, FnDecl, w)
  {
    AsPrinted(p, r, FnDecl, w);
  }

  lemma FunctionFollows(w: Rest, p: Production, r: Option<Rule>)
    requires p == FunctionRules(w.c1, w.c2, w.c3) && r == FunctionPrinted(w)
    ensures Follows(p, r, Function, w)
  {
    AsPrinted(p, r, Function, w);
  }

  lemma PlainlyBraces()
    ensures Plainly(Big(FORCE, Sub(0, Big(INDENT, Big(FORCE, Sub(1, Big(FORCE, Big(BACKUP, Sub(2,
                    Big(OUTDENT, Big(FORCE, End))))))))))) ==
            Raw(FORCE, Sub(0, Raw(INDENT, Raw(FORCE, Sub(1, Raw(FORCE, Raw(BACKUP, Sub(2,
            Raw(OUTDENT, Raw(FORCE, End))))))))))
  {
    var l := Sub(2, Big(OUTDENT, Big(FORCE, End)));
    assert Plainly(l) == Sub(2, Raw(OUTDENT, Raw(FORCE, End)));
    var m := Sub(1, Big(FORCE, Big(BACKUP, l)));
    assert Plainly(m) == Sub(1, Raw(FORCE, Raw(BACKUP, Plainly(l))));
    var n := Sub(0, Big(INDENT, Big(FORCE, m)));
    assert Plainly(n) == Sub(0, Raw(INDENT, Raw(FORCE, Plainly(m))));
  }

  lemma LbraceBlockFollows(w: Rest, p: Production, r: Option<Rule>)
    requires p == LbraceBlock(w.c1, w.c2, w.c3) && r == LbracePrinted(w) && w.c1 in {Stmt, Decl, Function}
    ensures Follows(p, r, Lbrace, w)
  {
    PlainlyBraces();
    AsPrinted(p, r, Lbrace, w);
  }

  lemma LbraceFollows(w: Rest, p: Production, r: Option<Rule>)
    requires p == LbraceRules(w.c1, w.c2, w.c3) && r == LbracePrinted(w)
    ensures Follows(p, r, Lbrace, w)
  {
    if w.c1 in {Stmt, Decl, Function} { LbraceBlockFollows(w, p, r); } else { AsPrinted(p, r, Lbrace, w); }
  }

  lemma PlainlyIndented(rest: Layout)
    ensures Plainly(Indented(rest)) == Lines(Raw(FORCE, Plainly(rest)))
  {
    var l := Big(OUTDENT, Big(FORCE, rest));
    assert Plainly(l) == Raw(OUTDENT, Raw(FORCE, Plainly(rest)));
    var m := Big(BREAK_SPACE, Sub(1, l));
    assert Plainly(m) == Raw(BREAK_SPACE, Sub(1, Plainly(l)));
    assert Plainly(Sub(0, Big(INDENT, m))) == Sub(0, Raw(INDENT, Plainly(m)));
  }

  lemma PlainlyHanging(rest: Layout)
    ensures Plainly(Hanging(rest)) == Blocks(FORCE, Plainly(rest))
  {
    var l := Sub(1, Big(FORCE, rest));
    assert Plainly(l) == Sub(1, Raw(FORCE, Plainly(rest)));
    var m := Raw(NOOP, Big(CANCEL, l));
    assert Plainly(m) == Raw(NOOP, Raw(CANCEL, Plainly(l)));
    assert Plainly(Sub(0, Big(BREAK_SPACE, m))) == Sub(0, Raw(BREAK_SPACE, Plainly(m)));
  }

  lemma IfClauseElseFollows(w: Rest, p: Production, r: Option<Rule>)
    requires p == IfClauseElse(w.c1, w.c3) && r == IfClausePrinted(w) && w.c1 == Stmt && w.c2 == ElseLike
    ensures Follows(p, r, IfClause, w)
  {
    PlainlyIndented(if w.c3 == IfLike then Sub(2, Big(SPACE, Sub(3, End))) else Sub(2, End));
    AsPrinted(p, r, IfClause, w);
  }

  lemma IfClauseFollows(w: Rest, p: Production, r: Option<Rule>)
    requires p == IfClauseRules(w.c1, w.c2, w.c3) && r == IfClausePrinted(w)
    ensures Follows(p, r, IfClause, w)
  {
    if w.c1 == Stmt && w.c2 == ElseLike { IfClauseElseFollows(w, p, r); } else { AsPrinted(p, r, IfClause, w); }
  }

  lemma IfHeadElseFollows(w: Rest, p: Production, r: Option<Rule>)
    requires p == IfHeadElse(w.c1, w.c3) && r == IfHeadPrinted(w) && w.c1 in {Stmt, Exp} && w.c2 == ElseLike
    ensures Follows(p, r, IfHead, w)
  {
    PlainlyHanging(if w.c3 == IfLike then Sub(2, Big(SPACE, Sub(3, End))) else Sub(2, End));
    AsPrinted(p, r, IfHead, w);
  }

  lemma IfHeadFollows(w: Rest, p: Production, r: Option<Rule>)
    requires p == IfHeadRules(w.c1, w.c2, w.c3) && r == IfHeadPrinted(w)
    ensures Follows(p, r, IfHead, w)
  {
    if w.c1 in {Stmt, Exp} && w.c2 == ElseLike { IfHeadElseFollows(w, p, r); } else { AsPrinted(p, r, IfHead, w); }
  }

  lemma CaseLikeFollows(w: Rest, p: Production, r: Option<Rule>)
    requires p == CaseLikeRules(w.c1, w.c2, w.c3) && r == CasePrinted(w)
    ensures Follows(p, r, CaseLike, w)
  {
    AsPrinted(p, r, CaseLike, w);
  }

  lemma TagFollows(w: Rest, p: Production, r: Option<Rule>)
    requires p == TagRules(w.c1, w.c2, w.c3) && r == TagPrinted(w)
    ensures Follows(p, r, Tag, w)
  {
    AsPrinted(p, r, Tag, w);
  }

  lemma StmtFollows(w: Rest, forceLines: bool, p: Production, r: Option<Rule>)
    requires p == StmtRules(w.c1, w.c2, w.c3, forceLines) && r == StmtPrinted(w, forceLines)
    ensures Follows(p, r, Stmt, w)
  {
    AsPrinted(p, r, Stmt, w);
  }

  lemma SemiFollows(w: Rest, p: Production, r: Option<Rule>)
    requires p == SemiRules(w.c1, w.c2, w.c3) && r == SemiPrinted(w)
    ensures Follows(p, r, Semi, w)
  {
    AsPrinted(p, r, Semi, w);
  }

  lemma PlainlyDefine()
    ensures Plainly(Raw(INSERTED, Sub(0, Big(SPACE, Sub(1,
                    Raw(SPACE, Raw(BACKSLASH, Raw(FIVE, Sub(2, Sub(3, End)))))))))) ==
            Raw(INSERTED, Sub(0, Raw(SPACE, Sub(1,
            Raw(SPACE, Raw(BACKSLASH, Raw(FIVE, Sub(2, Sub(3, End)))))))))
  {
    var l := Raw(FIVE, Sub(2, Sub(3, End)));
    assert Plainly(l) == l;
    var m := Sub(1, Raw(SPACE, Raw(BACKSLASH, l)));
    assert Plainly(m) == m;
  }

  lemma LprocDefineFollows(w: Rest, p: Production, r: Option<Rule>)
    requires p == LprocDefine(w.c1, w.c2, w.c3) && r == LprocRest(w) && w.c1 == Exp && w.c2 == Exp && w.c3 == Rproc
    ensures Follows(p, r, Lproc, w)
  {
    PlainlyDefine();
    AsCorrected(p, r, Lproc, w);
  }

  lemma LprocRestFollows(w: Rest, p: Production, r: Option<Rule>)
    requires p == LprocLine(w.c1, w.c2, w.c3) && r == LprocRest(w)
    ensures Follows(p, r, Lproc, w)
  {
    if w.c1 == Exp && w.c2 == Exp && w.c3 == Rproc { LprocDefineFollows(w, p, r); }
    else { AsCorrected(p, r, Lproc, w); }
  }

  lemma LprocFollows(w: Rest, p: Production, r: Option<Rule>)
    requires p == LprocRules(w.c1, w.c2, w.c3) && r == LprocPrinted(w)
    ensures Follows(p, r, Lproc, w)
  {
    if r.Some? && r.value.number <= 79 { AsCorrected(p, r, Lproc, w); }
    else { LprocRestFollows(w, p, r); }
  }

  lemma LangleFollows(w: Rest, p: Production, r: Option<Rule>)
    requires p == LangleRules(w.c1, w.c2, w.c3) && r == LanglePrinted(w)
    ensures Follows(p, r, Langle, w)
  {
    AsPrinted(p, r, Langle, w);
  }

  lemma NewLikeFollows(w: Rest, p: Production, r: Option<Rule>)
    requires p == NewLikeRules(w.c1, w.c2, w.c3) && r == NewPrinted(w)
    ensures Follows(p, r, NewLike, w)
  {
    AsPrinted(p, r, NewLike, w);
  }

  lemma OperatorLikeFollows(w: Rest, p: Production, r: Option<Rule>)
    requires p == OperatorLikeRules(w.c1, w.c2, w.c3) && r == OperatorLikePrinted(w)
    ensures Follows(p, r, OperatorLike, w)
  {
    AsCorrected(p, r, OperatorLike, w);
  }

  lemma SectionScrapFollows(w: Rest, p: Production, r: Option<Rule>)
    requires p == SectionScrapRules(w.c1, w.c2, w.c3) && r == SectionScrapPrinted(w)
    ensures Follows(p, r, SectionScrap, w)
  {
    AsPrinted(p, r, SectionScrap, w);
  }

  lemma InsertFollows(w: Rest, p: Production, r: Option<Rule>)
    requires p == InsertRules(w.c1, w.c2, w.c3) && r == InsertPrinted(w)
    ensures Follows(p, r, Insert, w)
  {
    AsPrinted(p, r, Insert, w);
  }

  lemma PrelangleFollows(w: Rest, p: Production, r: Option<Rule>)
    requires p == Angle(LESS, 84) && r == PrelanglePrinted(w)
    ensures Follows(p, r, Prelangle, w)
  {
    AsPrinted(p, r, Prelangle, w);
  }

  lemma PrerangleFollows(w: Rest, p: Production, r: Option<Rule>)
    requires p == Angle(GREATER, 85) && r == PreranglePrinted(w)
    ensures Follows(p, r, Prerangle, w)
  {
    AsPrinted(p, r, Prerangle, w);
  }

  lemma PublicLikeFollows(w: Rest, p: Production, r: Option<Rule>)
    requires p == PublicLikeRules(w.c1, w.c2, w.c3) && r == PublicLikePrinted(w)
    ensures Follows(p, r, PublicLike, w)
  {
    AsPrinted(p, r, PublicLike, w);
  }

  lemma ColcolFollows(w: Rest, p: Production, r: Option<Rule>)
    requires p == ColcolRules(w.c1, w.c2, w.c3) && r == ColcolPrinted(w)
    ensures Follows(p, r, Colcol, w)
  {
    AsPrinted(p, r, Colcol, w);
  }

  lemma IfLikeFollows(w: Rest, p: Production, r: Option<Rule>)
    requires p == IfLikeRules(w.c1, w.c2, w.c3) && r == IfLikePrinted(w)
    ensures Follows(p, r, IfLike, w)
  {
    AsPrinted(p, r, IfLike, w);
  }

  lemma ForLikeFollows(w: Rest, p: Production, r: Option<Rule>)
    requires p == ForLikeRules(w.c1, w.c2, w.c3) && r == ForLikePrinted(w)
    ensures Follows(p, r, ForLike, w)
  {
    AsPrinted(p, r, ForLike, w);
  }

  lemma ElseLikeFollows(w: Rest, p: Production, r: Option<Rule>)
    requires p == ElseLikeRules(w.c1, w.c2, w.c3) && r == ElseLikePrinted(w)
    ensures Follows(p, r, ElseLike, w)
  {
    AsPrinted(p, r, ElseLike, w);
  }

  lemma ElseHeadFollows(w: Rest, p: Production, r: Option<Rule>)
    requires p == ElseHeadRules(w.c1, w.c2, w.c3) && r == ElseHeadPrinted(w)
    ensures Follows(p, r, ElseHead, w)
  {
    AsCorrected(p, r, ElseHead, w);
  }

  lemma PlainlyDo()
    ensures Plainly(Sub(0, Big(BREAK_SPACE, Raw(NOOP, Big(CANCEL, Sub(1,
                    Big(CANCEL, Raw(NOOP, Big(BREAK_SPACE, Sub(2, Sub(3, End))))))))))) ==
            Sub(0, Raw(BREAK_SPACE, Raw(NOOP, Raw(CANCEL, Sub(1,
            Raw(CANCEL, Raw(NOOP, Raw(BREAK_SPACE, Sub(2, Sub(3, End))))))))))
  {
    var l := Big(BREAK_SPACE, Sub(2, Sub(3, End)));
    assert Plainly(l) == Raw(BREAK_SPACE, Sub(2, Sub(3, End)));
    var m := Sub(1, Big(CANCEL, Raw(NOOP, l)));
    assert Plainly(m) == Sub(1, Raw(CANCEL, Raw(NOOP, Plainly(l))));
    var n := Big(BREAK_SPACE, Raw(NOOP, Big(CANCEL, m)));
    assert Plainly(n) == Raw(BREAK_SPACE, Raw(NOOP, Raw(CANCEL, Plainly(m))));
  }

  lemma DoLikeFollows(w: Rest, p: Production, r: Option<Rule>)
    requires p == DoLikeRules(w.c1, w.c2, w.c3) && r == DoLikePrinted(w)
    ensures Follows(p, r, DoLike, w)
  {
    PlainlyDo();
    AsPrinted(p, r, DoLike, w);
  }

  lemma CatchLikeFollows(w: Rest, p: Production, r: Option<Rule>)
    requires p == CatchLikeRules(w.c1, w.c2, w.c3) && r == CatchLikePrinted(w)
    ensures Follows(p, r, CatchLike, w)
  {
    AsPrinted(p, r, CatchLike, w);
  }

  lemma BaseFollows(w: Rest, p: Production, r: Option<Rule>)
    requires p == BaseRules(w.c1, w.c2, w.c3) && r == BasePrinted(w)
    ensures Follows(p, r, Base, w)
  {
    AsPrinted(p, r, Base, w);
  }

  lemma RawRparFollows(w: Rest, p: Production, r: Option<Rule>)
    requires p == RawRparRules(w.c1, w.c2, w.c3) && r == RawRparPrinted(w)
    ensures Follows(p, r, RawRpar, w)
  {
    AsPrinted(p, r, RawRpar, w);
  }

  lemma RawUnorbinFollows(w: Rest, p: Production, r: Option<Rule>)
    requires p == RawUnorbinRules(w.c1, w.c2, w.c3) && r == RawUnorbinPrinted(w)
    ensures Follows(p, r, RawUnorbin, w)
  {
    AsPrinted(p, r, RawUnorbin, w);
  }

  lemma ConstLikeFollows(w: Rest, p: Production, r: Option<Rule>)
    requires p == ConstLikeRules(w.c1, w.c2, w.c3) && r == ConstLikePrinted(w)
    ensures Follows(p, r, ConstLike, w)
  {
    AsPrinted(p, r, ConstLike, w);
  }

  lemma RawIntFollows(w: Rest, p: Production, r: Option<Rule>)
    requires p == RawIntRules(w.c1, w.c2, w.c3) && r == RawIntPrinted(w)
    ensures Follows(p, r, RawInt, w)
  {
    AsCorrected(p, r, RawInt, w);
  }

  // The categories, in parts that can be told apart quickly.
  function Part(c: Cat): nat {
    match c
    case Exp | Lpar | Question | Unop | Unorbinop | Binop | Cast | SizeofLike => 0
    case IntLike | DeclHead | Decl | TypedefLike | StructLike | StructHead | FnDecl => 1
    case Function | Lbrace | IfClause | IfHead | CaseLike | Tag | Stmt => 2
    case Semi | Lproc | Langle | NewLike | OperatorLike | SectionScrap | Insert | Prelangle => 3
    case Prerangle | PublicLike | Colcol | IfLike | ForLike | ElseLike | ElseHead => 4
    case _ => 5
  }

  lemma FirstPartFollows(c0: Cat, w: Rest, forceLines: bool, p: Production, r: Option<Rule>)
    requires Part(c0) == 0
    requires p == ByFirst(c0, w.c1, w.c2, w.c3, forceLines) && r == Listed(c0, w, forceLines)
    ensures Follows(p, r, c0, w)
  {
    match c0
    case Exp => ExpFollows(w, p, r);
    case Lpar => LparFollows(w, p, r);
    case Question => QuestionFollows(w, p, r);
    case Unop => UnopFollows(w, p, r);
    case Unorbinop => UnorbinopFollows(w, p, r);
    case Binop => BinopFollows(w, p, r);
    case Cast => CastFollows(w, p, r);
    case SizeofLike => SizeofLikeFollows(w, p, r);
    case _ =>
  }

  lemma SecondPartFollows(c0: Cat, w: Rest, forceLines: bool, p: Production, r: Option<Rule>)
    requires Part(c0) == 1
    requires p == ByFirst(c0, w.c1, w.c2, w.c3, forceLines) && r == Listed(c0, w, forceLines)
    ensures Follows(p, r, c0, w)
  {
    match c0
    case IntLike => IntLikeFollows(w, p, r);
    case DeclHead => DeclHeadFollows(w, p, r);
    case Decl => DeclFollows(w, p, r);
    case TypedefLike => TypedefLikeFollows(w, p, r);
    case StructLike => StructLikeFollows(w, p, r);
    case StructHead => StructHeadFollows(w, p, r);
    case FnDecl => FnDeclFollows(w, p, r);
    case _ =>
  }

  lemma ThirdPartFollows(c0: Cat, w: Rest, forceLines: bool, p: Production, r: Option<Rule>)
    requires Part(c0) == 2
    requires p == ByFirst(c0, w.c1, w.c2, w.c3, forceLines) && r == Listed(c0, w, forceLines)
    ensures Follows(p, r, c0, w)
  {
    match c0
    case Function => FunctionFollows(w, p, r);
    case Lbrace => LbraceFollows(w, p, r);
    case IfClause => IfClauseFollows(w, p, r);
    case IfHead => IfHeadFollows(w, p, r);
    case CaseLike => CaseLikeFollows(w, p, r);
    case Tag => TagFollows(w, p, r);
    case Stmt => StmtFollows(w, forceLines, p, r);
    case _ =>
  }

  lemma FourthPartFollows(c0: Cat, w: Rest, forceLines: bool, p: Production, r: Option<Rule>)
    requires Part(c0) == 3
    requires p == ByFirst(c0, w.c1, w.c2, w.c3, forceLines) && r == Listed(c0, w, forceLines)
    ensures Follows(p, r, c0, w)
  {
    match c0
    case Semi => SemiFollows(w, p, r);
    case Lproc => LprocFollows(w, p, r);
    case Langle => LangleFollows(w, p, r);
    case NewLike => NewLikeFollows(w, p, r);
    case OperatorLike => OperatorLikeFollows(w, p, r);
    case SectionScrap => SectionScrapFollows(w, p, r);
    case Insert => InsertFollows(w, p, r);
    case Prelangle => PrelangleFollows(w, p, r);
    case _ =>
  }

  lemma FifthPartFollows(c0: Cat, w: Rest, forceLines: bool, p: Production, r: Option<Rule>)
    requires Part(c0) == 4
    requires p == ByFirst(c0, w.c1, w.c2, w.c3, forceLines) && r == Listed(c0, w, forceLines)
    ensures Follows(p, r, c0, w)
  {
    match c0
    case Prerangle => PrerangleFollows(w, p, r);
    case PublicLike => PublicLikeFollows(w, p, r);
    case Colcol => ColcolFollows(w, p, r);
    case IfLike => IfLikeFollows(w, p, r);
    case ForLike => ForLikeFollows(w, p, r);
    case ElseLike => ElseLikeFollows(w, p, r);
    case ElseHead => ElseHeadFollows(w, p, r);
    case _ =>
  }

  lemma LastPartFollows(c0: Cat, w: Rest, forceLines: bool, p: Production, r: Option<Rule>)
    requires Part(c0) == 5
    requires p == ByFirst(c0, w.c1, w.c2, w.c3, forceLines) && r == Listed(c0, w, forceLines)
    ensures Follows(p, r, c0, w)
  {
    match c0
    case DoLike => DoLikeFollows(w, p, r);
    case CatchLike => CatchLikeFollows(w, p, r);
    case Base => BaseFollows(w, p, r);
    case RawRpar => RawRparFollows(w, p, r);
    case RawUnorbin => RawUnorbinFollows(w, p, r);
    case ConstLike => ConstLikeFollows(w, p, r);
    case RawInt => RawIntFollows(w, p, r);
    case _ =>
  }

  lemma ListedFollows(c0: Cat, w: Rest, forceLines: bool, p: Production, r: Option<Rule>)
    requires p == ByFirst(c0, w.c1, w.c2, w.c3, forceLines) && r == Listed(c0, w, forceLines)
    ensures Follows(p, r, c0, w)
  {
    match Part(c0)
    case 0 => FirstPartFollows(c0, w, forceLines, p, r);
    case 1 => SecondPartFollows(c0, w, forceLines, p, r);
    case 2 => ThirdPartFollows(c0, w, forceLines, p, r);
    case 3 => FourthPartFollows(c0, w, forceLines, p, r);
    case 4 => FifthPartFollows(c0, w, forceLines, p, r);
    case _ => LastPartFollows(c0, w, forceLines, p, r);
  }

  // An insert is glued to the scrap before it: the one p glues, at place i + 1.
  lemma GlueOne(c0: Cat, w: Rest, i: nat, p: Production, next: Option<Rule>)
    requires i <= 2 && Window(c0, w.c1, w.c2, w.c3) && Nth(c0, w.c1, w.c2, w.c3, i + 1) == Insert
    requires (i > 0 ==> w.c1 != Insert) && (i > 1 ==> w.c2 != Insert)
    requires p.Match? && p.(d := 0) == Squash(i, 2, Nth(c0, w.c1, w.c2, w.c3, i), 0, 0)
    ensures Follows(p, Glue(w, next), c0, w)
  {
    AsPrinted(p, Glue(w, next), c0, w);
  }

  lemma GlueFollows(c0: Cat, w: Rest, p: Production, next: Option<Rule>)
    requires Window(c0, w.c1, w.c2, w.c3) && p == NextInsert(c0, w.c1, w.c2, w.c3)
    ensures if p.Match? then Follows(p, Glue(w, next), c0, w) else Glue(w, next) == next
  {
    if w.c1 == Insert { GlueOne(c0, w, 0, p, next); }
    else if w.c2 == Insert { GlueOne(c0, w, 1, p, next); }
    else if w.c3 == Insert { GlueOne(c0, w, 2, p, next); }
  }

  lemma EndsArgument(c0: Cat, w: Rest, p: Production, next: Option<Rule>)
    requires p == (if c0 == BeginArg then Squash(0, 2, Exp, -2, 110) else Squash(0, 2, EndArg, -1, 111))
    requires w.c1 == EndArg && !Undecided(c0)
    ensures Follows(p, General(c0, w, next), c0, w)
  {
    AsPrinted(p, General(c0, w, next), c0, w);
  }

  // Closing an argument and gluing an insert come first, for the program as in the list.
  lemma GeneralFollows(c0: Cat, w: Rest, p: Production, next: Option<Rule>)
    requires Window(c0, w.c1, w.c2, w.c3) && p == Adjacent(c0, w.c1, w.c2, w.c3)
    ensures var r := General(c0, w, next);
            if p.Match? then Follows(p, r, c0, w) else r == next
  {
    if w.c1 == EndArg && !Undecided(c0) { EndsArgument(c0, w, p, next); }
    else { GlueFollows(c0, w, p, next); }
  }

  // On every window the program does what the first printed rule that applies says, misprints
  // apart, and nothing if none applies.
  lemma FirstRuleFires(c0: Cat, w: Rest, forceLines: bool)
    requires Window(c0, w.c1, w.c2, w.c3)
    ensures Follows(Cweave(forceLines)(c0, w.c1, w.c2, w.c3), RuleFor(c0, w, forceLines), c0, w)
  {
    var own := Listed(c0, w, forceLines);
    GeneralFollows(c0, w, Adjacent(c0, w.c1, w.c2, w.c3), own);
    ListedFollows(c0, w, forceLines, ByFirst(c0, w.c1, w.c2, w.c3, forceLines), own);
  }
}
