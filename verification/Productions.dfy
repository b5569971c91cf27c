// The productions of the formatter as a table: what may fire on a window of four
// categories, and what it writes.  The numbers are those CWEAVE prints when it traces
// a reduction.
module Productions {
  import opened Wrappers
  import opened Scraps

  // What a production appends to its text, in order: a scrap of the window
  // (big_app1), a mode-sensitive token (big_app) or a bare one (app).
  datatype Layout =
    | End
    | Sub(i: nat, rest: Layout)
    | Big(tok: Token, rest: Layout)
    | Raw(tok: Token, rest: Layout)

  // Window scraps at..at+k become one scrap of category cat, and the cursor moves
  // by d.  keep: only the category changes.  seed: the math mode forced beforehand.
  // reserve: the window scrap on which make_reserved is called first.
  datatype Production =
    | NoMatch
    | Match(number: nat, at: nat, k: nat, cat: Cat, d: int, keep: bool, seed: Math,
            layout: Layout, reserve: Option<nat>)

  function Row(at: nat, k: nat): (l: Layout)
    decreases k
  {
    if k == 0 then End else Sub(at, Row(at + 1, k - 1))
  }

  function Squash(at: nat, k: nat, cat: Cat, d: int, n: nat): Production {
    if k == 1 then Match(n, at, 1, cat, d, true, Maybe, End, None)
    else Match(n, at, k, cat, d, false, Maybe, Row(at, k), None)
  }

  function Reduce(at: nat, k: nat, cat: Cat, d: int, n: nat, layout: Layout): Production {
    Match(n, at, k, cat, d, false, Maybe, layout, None)
  }

  function Reserving(at: nat, k: nat, cat: Cat, d: int, n: nat, layout: Layout, i: nat): Production {
    Match(n, at, k, cat, d, false, Maybe, layout, Some(i))
  }

  function Spaced(d: int, k: nat, cat: Cat, n: nat): (p: Production)
    requires 2 <= k <= 3
    ensures p.Match? && TakesInOrder(p.layout, 0, k)
  {
    Reduce(0, k, cat, d, n, Sub(0, Big(SPACE, Row(1, k - 1))))
  }

  function OptBreak(rest: Layout): Layout { Raw(OPT, Raw(NINE, rest)) }

  function Thin(rest: Layout): Layout { Raw(BACKSLASH, Raw(COMMA, rest)) }

  function Braced(i: nat, rest: Layout): Layout { Big(OPEN, Sub(i, Big(CLOSE, rest))) }

  function ExpBase(c2: Cat, c3: Cat): (p: Production)
    ensures Sound(p, Exp, Base, c2, c3)
  {
    if c2 == IntLike && c3 == Comma then
      Reduce(1, 3, Base, 0, 8, Sub(1, Big(SPACE, Sub(2, Sub(3, OptBreak(End))))))
    else ExpBaseBrace(c2, c3)
  }

  function ExpBaseBrace(c2: Cat, c3: Cat): (p: Production)
    ensures Sound(p, Exp, Base, c2, c3)
  {
    if c2 == IntLike && c3 == Lbrace then
      Reduce(0, 3, Exp, -1, 9, Sub(0, Big(SPACE, Sub(1, Big(SPACE, Sub(2, End))))))
    else NoMatch
  }

  function ExpRules(c1: Cat, c2: Cat, c3: Cat): (p: Production)
    ensures Sound(p, Exp, c1, c2, c3)
  {
    if c1 == Lbrace || c1 == IntLike || c1 == Decl then
      Reduce(0, 1, FnDecl, 0, 1, Sub(0, Big(INDENT, Raw(INDENT, End))))
    else if c1 == Unop then Squash(0, 2, Exp, -2, 2)
    else if (c1 == Binop || c1 == Unorbinop) && c2 == Exp then Squash(0, 3, Exp, -2, 3)
    else ExpJoining(c1, c2, c3)
  }

  function ExpJoining(c1: Cat, c2: Cat, c3: Cat): (p: Production)
    ensures Sound(p, Exp, c1, c2, c3)
  {
    if c1 == Comma && c2 == Exp then
      Reduce(0, 3, Exp, -2, 4, Sub(0, Sub(1, OptBreak(Sub(2, End)))))
    else if c1 == Exp || c1 == Cast then Squash(0, 2, Exp, -2, 5)
    else ExpClosing(c1, c2, c3)
  }

  function ExpClosing(c1: Cat, c2: Cat, c3: Cat): (p: Production)
    ensures Sound(p, Exp, c1, c2, c3)
  {
    if c1 == Semi then Squash(0, 2, Stmt, -1, 6)
    else if c1 == Colon then Squash(0, 2, Tag, 0, 7)
    else if c1 == Base then ExpBase(c2, c3)
    else if c1 == Rbrace then Squash(0, 1, Stmt, -1, 10)
    else NoMatch
  }

  function LparRules(c1: Cat, c2: Cat, c3: Cat): (p: Production)
    ensures Sound(p, Lpar, c1, c2, c3)
  {
    if (c1 == Exp || c1 == Unorbinop) && c2 == Rpar then Squash(0, 3, Exp, -2, 11)
    else if c1 == Rpar then Reduce(0, 2, Exp, -2, 12, Sub(0, Thin(Sub(1, End))))
    else LparList(c1, c2, c3)
  }

  function LparList(c1: Cat, c2: Cat, c3: Cat): (p: Production)
    ensures Sound(p, Lpar, c1, c2, c3)
  {
    if c1 == DeclHead || c1 == IntLike || c1 == Exp then
      if c2 == Rpar then Squash(0, 3, Cast, -2, 13)
      else if c2 == Comma then
        Reduce(0, 3, Lpar, 0, 14, Sub(0, Sub(1, Sub(2, OptBreak(End)))))
      else NoMatch
    else if c1 == Stmt || c1 == Decl then
      Reduce(0, 2, Lpar, 0, 15, Sub(0, Sub(1, Big(SPACE, End))))
    else NoMatch
  }

  function QuestionRules(c1: Cat, c2: Cat, c3: Cat): (p: Production)
    ensures Sound(p, Question, c1, c2, c3)
  {
    if c1 == Exp && c2 == Colon then Squash(0, 3, Binop, -2, 16) else NoMatch
  }

  function UnopRules(c1: Cat, c2: Cat, c3: Cat): (p: Production)
    ensures Sound(p, Unop, c1, c2, c3)
  {
    if c1 == Exp || c1 == IntLike then Squash(0, 2, c1, -2, 17) else NoMatch
  }

  function UnorbinopRules(c1: Cat, c2: Cat, c3: Cat): (p: Production)
    ensures Sound(p, Unorbinop, c1, c2, c3)
  {
    if c1 == Exp || c1 == IntLike then
      Reduce(0, 2, c1, -2, 18, Braced(0, Sub(1, End)))
    else if c1 == Binop then
      Reduce(0, 2, Binop, -1, 19, Big(MATH_REL, Sub(0, Braced(1, Big(CLOSE, End)))))
    else NoMatch
  }

  function BinopRules(c1: Cat, c2: Cat, c3: Cat): (p: Production)
    ensures Sound(p, Binop, c1, c2, c3)
  {
    if c1 == Binop then
      Reduce(0, 2, Binop, -1, 20, Big(MATH_REL, Braced(0, Braced(1, Big(CLOSE, End)))))
    else NoMatch
  }

  function CastRules(c1: Cat, c2: Cat, c3: Cat): (p: Production)
    ensures Sound(p, Cast, c1, c2, c3)
  {
    if c1 == Exp then Spaced(-2, 2, Exp, 21)
    else if c1 == Semi then Squash(0, 1, Exp, -2, 22)
    else NoMatch
  }

  function SizeofLikeRules(c1: Cat, c2: Cat, c3: Cat): (p: Production)
    ensures Sound(p, SizeofLike, c1, c2, c3)
  {
    if c1 == Cast then Squash(0, 2, Exp, -2, 23)
    else if c1 == Exp then Spaced(-2, 2, Exp, 24)
    else NoMatch
  }

  function IntLikeRules(c1: Cat, c2: Cat, c3: Cat): (p: Production)
    ensures Sound(p, IntLike, c1, c2, c3)
  {
    if c1 == IntLike || c1 == StructLike then Spaced(-2, 2, c1, 25)
    else if c1 == Exp && (c2 == RawInt || c2 == StructLike) then Squash(0, 2, IntLike, -2, 26)
    else IntLikeDeclares(c1, c2, c3)
  }

  function IntLikeDeclares(c1: Cat, c2: Cat, c3: Cat): (p: Production)
    ensures Sound(p, IntLike, c1, c2, c3)
  {
    if c1 == Exp || c1 == Unorbinop then
      Reduce(0, 1, DeclHead, -1, 27, Sub(0, Big(SPACE, End)))
    else if c1 == Semi then Reduce(0, 1, DeclHead, -1, 27, Sub(0, End))
    else IntLikeQualified(c1, c2, c3)
  }

  function IntLikeQualified(c1: Cat, c2: Cat, c3: Cat): (p: Production)
    ensures Sound(p, IntLike, c1, c2, c3)
  {
    if c1 == Colon then Reduce(0, 1, DeclHead, 0, 28, Sub(0, Big(SPACE, End)))
    else if c1 == Prelangle then Squash(1, 1, Langle, 1, 29)
    else IntLikeCast(c1, c2, c3)
  }

  function IntLikeCast(c1: Cat, c2: Cat, c3: Cat): (p: Production)
    ensures Sound(p, IntLike, c1, c2, c3)
  {
    if c1 == Colcol && (c2 == Exp || c2 == IntLike) then Squash(0, 3, c2, -2, 30)
    else if c1 == Cast then IntLikeFunction(c2, c3)
    else NoMatch
  }

  function IntLikeFunction(c2: Cat, c3: Cat): (p: Production)
    ensures Sound(p, IntLike, Cast, c2, c3)
  {
    if c2 == Lbrace then
      Reduce(0, 2, FnDecl, 1, 31, Sub(0, Sub(1, Big(INDENT, Big(INDENT, End)))))
    else Squash(0, 2, IntLike, -2, 32)
  }

  function DeclHeadRules(c1: Cat, c2: Cat, c3: Cat): (p: Production)
    ensures Sound(p, DeclHead, c1, c2, c3)
  {
    if c1 == Comma then
      Reduce(0, 2, DeclHead, -1, 33, Sub(0, Sub(1, Big(SPACE, End))))
    else if c1 == Unorbinop then
      Reduce(0, 2, DeclHead, -1, 34, Sub(0, Braced(1, End)))
    else if c1 == Exp && c2 != Lpar && c2 != Exp then Squash(0, 2, DeclHead, -1, 35)
    else DeclHeadClosing(c1, c2, c3)
  }

  function DeclHeadClosing(c1: Cat, c2: Cat, c3: Cat): (p: Production)
    ensures Sound(p, DeclHead, c1, c2, c3)
  {
    if (c1 == Binop || c1 == Colon) && c2 == Exp && (c3 == Comma || c3 == Semi || c3 == Rpar) then
      Squash(0, 3, DeclHead, -1, 36)
    else DeclHeadBody(c1, c2, c3)
  }

  function DeclHeadBody(c1: Cat, c2: Cat, c3: Cat): (p: Production)
    ensures Sound(p, DeclHead, c1, c2, c3)
  {
    if c1 == Cast then Squash(0, 2, DeclHead, -1, 37)
    else if c1 == Lbrace || (c1 == IntLike && c2 != Colcol) || c1 == Decl then
      Reduce(0, 1, FnDecl, 0, 38, Sub(0, Big(INDENT, Raw(INDENT, End))))
    else if c1 == Semi then Squash(0, 2, Decl, -1, 39)
    else NoMatch
  }

  function DeclRules(c1: Cat, c2: Cat, c3: Cat): (p: Production)
    ensures Sound(p, Decl, c1, c2, c3)
  {
    if c1 == Decl then Reduce(0, 2, Decl, -1, 40, Sub(0, Big(FORCE, Sub(1, End))))
    else if c1 == Stmt || c1 == Function then
      Reduce(0, 2, c1, -1, 41, Sub(0, Big(BIG_FORCE, Sub(1, End))))
    else NoMatch
  }

  function TypedefLikeRules(c1: Cat, c2: Cat, c3: Cat): (p: Production)
    ensures Sound(p, TypedefLike, c1, c2, c3)
  {
    if c1 == DeclHead then
      if (c2 == Exp && c3 != Lpar && c3 != Exp) || c2 == IntLike then
        Reserving(1, 2, DeclHead, 0, 42, Row(1, 2), 2)
      else if c2 == Semi then Spaced(-1, 3, Decl, 43)
      else NoMatch
    else NoMatch
  }

  function StructLikeRules(c1: Cat, c2: Cat, c3: Cat): (p: Production)
    ensures Sound(p, StructLike, c1, c2, c3)
  {
    if c1 == Lbrace then Spaced(0, 2, StructHead, 44)
    else if c1 == Exp || c1 == IntLike then
      StructNamed(c1, c2, c3)
    else NoMatch
  }

  function StructNamed(c1: Cat, c2: Cat, c3: Cat): (p: Production)
    requires c1 == Exp || c1 == IntLike
    ensures Sound(p, StructLike, c1, c2, c3)
  {
    if c2 == Semi then Reserving(0, 2, DeclHead, 0, 45, Sub(0, Big(SPACE, Sub(1, End))), 1)
    else if c2 == Lbrace then
      Reserving(0, 3, StructHead, 0, 46,
                Sub(0, Big(SPACE, Sub(1, Big(SPACE, Sub(2, End))))), 1)
    else StructBased(c1, c2, c3)
  }

  function StructBased(c1: Cat, c2: Cat, c3: Cat): (p: Production)
    requires c1 == Exp || c1 == IntLike
    ensures Sound(p, StructLike, c1, c2, c3)
  {
    if c2 == Colon then Squash(2, 1, Base, -1, 47)
    else if c2 != Base then Spaced(-2, 2, IntLike, 48)
    else NoMatch
  }

  function StructHeadRules(c1: Cat, c2: Cat, c3: Cat): (p: Production)
    ensures Sound(p, StructHead, c1, c2, c3)
  {
    if (c1 == Decl || c1 == Stmt || c1 == Function) && c2 == Rbrace then
      Reduce(0, 3, IntLike, -2, 49,
             Sub(0, Big(INDENT, Big(FORCE, Sub(1, Big(OUTDENT, Big(FORCE, Sub(2, End))))))))
    else if c1 == Rbrace then Reduce(0, 2, IntLike, -2, 50, Sub(0, Thin(Sub(1, End))))
    else NoMatch
  }

  function FnDeclRules(c1: Cat, c2: Cat, c3: Cat): (p: Production)
    ensures Sound(p, FnDecl, c1, c2, c3)
  {
    if c1 == Decl then Reduce(0, 2, FnDecl, 0, 51, Sub(0, Big(FORCE, Sub(1, End))))
    else if c1 == Stmt then
      Reduce(0, 2, Function, -1, 52,
             Sub(0, Raw(OUTDENT, Raw(OUTDENT, Big(FORCE, Sub(1, End))))))
    else NoMatch
  }

  function FunctionRules(c1: Cat, c2: Cat, c3: Cat): (p: Production)
    ensures Sound(p, Function, c1, c2, c3)
  {
    if c1 == Function || c1 == Decl || c1 == Stmt then
      Reduce(0, 2, c1, -1, 53, Sub(0, Big(BIG_FORCE, Sub(1, End))))
    else NoMatch
  }

  function LbraceRules(c1: Cat, c2: Cat, c3: Cat): (p: Production)
    ensures Sound(p, Lbrace, c1, c2, c3)
  {
    if c1 == Rbrace then Reduce(0, 2, Stmt, -1, 54, Sub(0, Thin(Sub(1, End))))
    else LbraceBlock(c1, c2, c3)
  }

  function LbraceBlock(c1: Cat, c2: Cat, c3: Cat): (p: Production)
    ensures Sound(p, Lbrace, c1, c2, c3)
  {
    if (c1 == Stmt || c1 == Decl || c1 == Function) && c2 == Rbrace then
      Reduce(0, 3, Stmt, -1, 55,
             Big(FORCE, Sub(0, Big(INDENT, Big(FORCE, Sub(1, Big(FORCE, Big(BACKUP, Sub(2,
             Big(OUTDENT, Big(FORCE, End)))))))))))
    else LbraceExp(c1, c2, c3)
  }

  function LbraceExp(c1: Cat, c2: Cat, c3: Cat): (p: Production)
    ensures Sound(p, Lbrace, c1, c2, c3)
  {
    if c1 == Exp then
      if c2 == Rbrace then Squash(0, 3, Exp, -2, 56)
      else if c2 == Comma && c3 == Rbrace then Squash(0, 4, Exp, -2, 56)
      else NoMatch
    else NoMatch
  }

  // if and else heads: the second scrap on a line of its own, indented or hanging.
  function Indented(rest: Layout): Layout {
    Big(FORCE, Sub(0, Big(INDENT, Big(BREAK_SPACE, Sub(1, Big(OUTDENT, Big(FORCE, rest)))))))
  }

  function Hanging(rest: Layout): Layout {
    Big(FORCE, Sub(0, Big(BREAK_SPACE, Raw(NOOP, Big(CANCEL, Sub(1, Big(FORCE, rest)))))))
  }

  function DoLikeRules(c1: Cat, c2: Cat, c3: Cat): (p: Production)
    ensures Sound(p, DoLike, c1, c2, c3)
  {
    if c1 == Stmt && c2 == ElseLike && c3 == Semi then
      Reduce(0, 4, Stmt, -1, 69,
             Sub(0, Big(BREAK_SPACE, Raw(NOOP, Big(CANCEL, Sub(1,
             Big(CANCEL, Raw(NOOP, Big(BREAK_SPACE, Sub(2, Sub(3, End)))))))))))
    else NoMatch
  }

  function IfLikeRules(c1: Cat, c2: Cat, c3: Cat): (p: Production)
    ensures Sound(p, IfLike, c1, c2, c3)
  {
    if c1 == Exp then Spaced(0, 2, IfClause, 57) else NoMatch
  }

  function ForLikeRules(c1: Cat, c2: Cat, c3: Cat): (p: Production)
    ensures Sound(p, ForLike, c1, c2, c3)
  {
    if c1 == Exp then Spaced(-2, 2, ElseLike, 58) else NoMatch
  }

  function ElseLikeRules(c1: Cat, c2: Cat, c3: Cat): (p: Production)
    ensures Sound(p, ElseLike, c1, c2, c3)
  {
    if c1 == Lbrace then Squash(0, 1, ElseHead, 0, 59)
    else if c1 == Stmt then Reduce(0, 2, Stmt, -1, 60, Indented(End))
    else NoMatch
  }

  function IfClauseRules(c1: Cat, c2: Cat, c3: Cat): (p: Production)
    ensures Sound(p, IfClause, c1, c2, c3)
  {
    if c1 == Lbrace then Squash(0, 1, IfHead, 0, 62)
    else if c1 == Stmt then
      if c2 == ElseLike then IfClauseElse(c1, c3) else Squash(0, 1, ElseLike, 0, 65)
    else NoMatch
  }

  function IfClauseElse(c1: Cat, c3: Cat): (p: Production)
    ensures Sound(p, IfClause, c1, ElseLike, c3)
  {
    if c3 == IfLike then
      Reduce(0, 4, IfLike, 0, 63, Indented(Sub(2, Big(SPACE, Sub(3, End)))))
    else Reduce(0, 3, ElseLike, 0, 64, Indented(Sub(2, End)))
  }

  function IfHeadRules(c1: Cat, c2: Cat, c3: Cat): (p: Production)
    ensures Sound(p, IfHead, c1, c2, c3)
  {
    if c1 == Stmt || c1 == Exp then
      if c2 == ElseLike then IfHeadElse(c1, c3) else Squash(0, 1, ElseHead, 0, 68)
    else NoMatch
  }

  function IfHeadElse(c1: Cat, c3: Cat): (p: Production)
    ensures Sound(p, IfHead, c1, ElseLike, c3)
  {
    if c3 == IfLike then
      Reduce(0, 4, IfLike, 0, 66, Hanging(Sub(2, Big(SPACE, Sub(3, End)))))
    else Reduce(0, 3, ElseLike, 0, 67, Hanging(Sub(2, End)))
  }

  function ElseHeadRules(c1: Cat, c2: Cat, c3: Cat): (p: Production)
    ensures Sound(p, ElseHead, c1, c2, c3)
  {
    if c1 == Stmt || c1 == Exp then Reduce(0, 2, Stmt, -1, 61, Hanging(End)) else NoMatch
  }

  function CaseLikeRules(c1: Cat, c2: Cat, c3: Cat): (p: Production)
    ensures Sound(p, CaseLike, c1, c2, c3)
  {
    if c1 == Semi then Squash(0, 2, Stmt, -1, 70)
    else if c1 == Colon then Squash(0, 2, Tag, -1, 71)
    else if c1 == Exp then
      if c2 == Semi then Spaced(-1, 3, Stmt, 72)
      else if c2 == Colon then Spaced(-1, 3, Tag, 73)
      else NoMatch
    else NoMatch
  }

  function TagRules(c1: Cat, c2: Cat, c3: Cat): (p: Production)
    ensures Sound(p, Tag, c1, c2, c3)
  {
    if c1 == Tag then Reduce(0, 2, Tag, -1, 74, Sub(0, Big(BREAK_SPACE, Sub(1, End))))
    else if c1 == Stmt || c1 == Decl || c1 == Function then
      Reduce(0, 2, c1, -1, 75,
             Big(FORCE, Big(BACKUP, Sub(0, Big(BREAK_SPACE, Sub(1, End))))))
    else NoMatch
  }

  function StmtRules(c1: Cat, c2: Cat, c3: Cat, forceLines: bool): (p: Production)
    ensures Sound(p, Stmt, c1, c2, c3)
  {
    if c1 == Decl || c1 == Function then
      Reduce(0, 2, c1, -1, 76, Sub(0, Big(BIG_FORCE, Sub(1, End))))
    else if c1 == Stmt then
      if forceLines then Reduce(0, 2, c1, -1, 76, Sub(0, Big(FORCE, Sub(1, End))))
      else Reduce(0, 2, c1, -1, 76, Sub(0, Big(BREAK_SPACE, Sub(1, End))))
    else NoMatch
  }

  function SemiRules(c1: Cat, c2: Cat, c3: Cat): (p: Production)
    ensures Sound(p, Semi, c1, c2, c3)
  {
    Reduce(0, 1, Stmt, -1, 77, Big(SPACE, Sub(0, End)))
  }

  function LprocRules(c1: Cat, c2: Cat, c3: Cat): (p: Production)
    ensures Sound(p, Lproc, c1, c2, c3)
  {
    if c1 == ElseLike || c1 == IfLike || c1 == DefineLike then Squash(0, 2, Lproc, 0, 78)
    else if c1 == Rproc then Reduce(0, 2, Insert, -1, 79, Raw(INSERTED, Row(0, 2)))
    else LprocLine(c1, c2, c3)
  }

  function LprocLine(c1: Cat, c2: Cat, c3: Cat): (p: Production)
    ensures Sound(p, Lproc, c1, c2, c3)
  {
    if c1 == Exp || c1 == Function then
      if c2 == Rproc then
        Reduce(0, 3, Insert, -1, 80, Raw(INSERTED, Sub(0, Big(SPACE, Row(1, 2)))))
      else LprocDefine(c1, c2, c3)
    else NoMatch
  }

  function LprocDefine(c1: Cat, c2: Cat, c3: Cat): (p: Production)
    ensures Sound(p, Lproc, c1, c2, c3)
  {
    if c2 == Exp && c3 == Rproc && c1 == Exp then
      Reduce(0, 4, Insert, -1, 80,
             Raw(INSERTED, Sub(0, Big(SPACE, Sub(1,
             Raw(SPACE, Raw(BACKSLASH, Raw(FIVE, Sub(2, Sub(3, End))))))))))
    else NoMatch
  }

  function SectionScrapRules(c1: Cat, c2: Cat, c3: Cat): (p: Production)
    ensures Sound(p, SectionScrap, c1, c2, c3)
  {
    if c1 == Semi then Reduce(0, 2, Stmt, -2, 81, Sub(0, Sub(1, Big(FORCE, End))))
    else Squash(0, 1, Exp, -2, 82)
  }

  function InsertRules(c1: Cat, c2: Cat, c3: Cat): (p: Production)
    ensures Sound(p, Insert, c1, c2, c3)
  {
    if c1 != Zero then Squash(0, 2, c1, 0, 83) else NoMatch
  }

  // The scrap's text is replaced by a bare < or > in math mode.
  function Angle(tok: Token, n: nat): Production {
    Match(n, 0, 1, Binop, -2, false, Yes, Raw(tok, End), None)
  }

  function LangleRules(c1: Cat, c2: Cat, c3: Cat): (p: Production)
    ensures Sound(p, Langle, c1, c2, c3)
  {
    if c1 == Exp && c2 == Prerangle then Squash(0, 3, Cast, -1, 86)
    else if c1 == Prerangle then Reduce(0, 2, Cast, -1, 87, Sub(0, Thin(Sub(1, End))))
    else LangleList(c1, c2, c3)
  }

  function LangleList(c1: Cat, c2: Cat, c3: Cat): (p: Production)
    ensures Sound(p, Langle, c1, c2, c3)
  {
    if c1 == DeclHead || c1 == IntLike then
      if c2 == Prerangle then Squash(0, 3, Cast, -1, 88)
      else if c2 == Comma then
        Reduce(0, 3, Langle, 0, 89, Sub(0, Sub(1, Sub(2, OptBreak(End)))))
      else NoMatch
    else NoMatch
  }

  function PublicLikeRules(c1: Cat, c2: Cat, c3: Cat): (p: Production)
    ensures Sound(p, PublicLike, c1, c2, c3)
  {
    if c1 == Colon then Squash(0, 2, Tag, -1, 90) else Squash(0, 1, IntLike, -2, 91)
  }

  function ColcolRules(c1: Cat, c2: Cat, c3: Cat): (p: Production)
    ensures Sound(p, Colcol, c1, c2, c3)
  {
    if c1 == Exp || c1 == IntLike then Squash(0, 2, c1, -2, 92) else NoMatch
  }

  function NewLikeRules(c1: Cat, c2: Cat, c3: Cat): (p: Production)
    ensures Sound(p, NewLike, c1, c2, c3)
  {
    if c1 == Exp || (c1 == RawInt && c2 != Prelangle && c2 != Langle) then
      Spaced(0, 2, NewLike, 93)
    else if c1 == RawUnorbin || c1 == Colcol then Squash(0, 2, NewLike, 0, 94)
    else if c1 == Cast then Squash(0, 2, Exp, -2, 95)
    else if c1 != Lpar && c1 != RawInt && c1 != StructLike then Squash(0, 1, Exp, -2, 96)
    else NoMatch
  }

  function OperatorLikeRules(c1: Cat, c2: Cat, c3: Cat): (p: Production)
    ensures Sound(p, OperatorLike, c1, c2, c3)
  {
    if c1 == Binop || c1 == Unop || c1 == Unorbinop then
      if c2 == Binop then NoMatch
      else Reduce(0, 2, Exp, -2, 97, Sub(0, Braced(1, End)))
    else if c1 == NewLike || c1 == SizeofLike then Spaced(-2, 2, Exp, 98)
    else Squash(0, 1, NewLike, 0, 99)
  }

  function CatchLikeRules(c1: Cat, c2: Cat, c3: Cat): (p: Production)
    ensures Sound(p, CatchLike, c1, c2, c3)
  {
    if c1 == Cast || c1 == Exp then
      Reduce(0, 2, FnDecl, 0, 100, Sub(0, Sub(1, Big(INDENT, Big(INDENT, End)))))
    else NoMatch
  }

  function BaseRules(c1: Cat, c2: Cat, c3: Cat): (p: Production)
    ensures Sound(p, Base, c1, c2, c3)
  {
    if c1 == PublicLike && c2 == Exp then
      if c3 == Comma then
        Reduce(0, 4, Base, 0, 101, Sub(0, Sub(1, Big(SPACE, Sub(2, Sub(3, End))))))
      else Reduce(1, 2, IntLike, -1, 102, Sub(1, Big(SPACE, Sub(2, End))))
    else NoMatch
  }

  function RawRparRules(c1: Cat, c2: Cat, c3: Cat): (p: Production)
    ensures Sound(p, RawRpar, c1, c2, c3)
  {
    if c1 == ConstLike && (c2 == Semi || c2 == Lbrace || c2 == Comma || c2 == Binop || c2 == ConstLike) then
      Spaced(0, 2, RawRpar, 103)
    else Squash(0, 1, Rpar, -3, 104)
  }

  function RawUnorbinRules(c1: Cat, c2: Cat, c3: Cat): (p: Production)
    ensures Sound(p, RawUnorbin, c1, c2, c3)
  {
    if c1 == ConstLike then
      Reduce(0, 2, RawUnorbin, 0, 105, Sub(0, Sub(1, Raw(BACKSLASH, Raw(SPACE, End)))))
    else Squash(0, 1, Unorbinop, -2, 106)
  }

  function ConstLikeRules(c1: Cat, c2: Cat, c3: Cat): (p: Production)
    ensures Sound(p, ConstLike, c1, c2, c3)
  {
    Squash(0, 1, IntLike, -2, 107)
  }

  function RawIntRules(c1: Cat, c2: Cat, c3: Cat): (p: Production)
    ensures Sound(p, RawInt, c1, c2, c3)
  {
    if c1 == Lpar then Squash(0, 1, Exp, -2, 108) else Squash(0, 1, IntLike, -3, 109)
  }

  function ByFirst(c0: Cat, c1: Cat, c2: Cat, c3: Cat, forceLines: bool): (p: Production)
    ensures Sound(p, c0, c1, c2, c3)
  {
    match c0
    case Exp => ExpRules(c1, c2, c3)
    case Lpar => LparRules(c1, c2, c3)
    case Question => QuestionRules(c1, c2, c3)
    case Unop => UnopRules(c1, c2, c3)
    case Unorbinop => UnorbinopRules(c1, c2, c3)
    case Binop => BinopRules(c1, c2, c3)
    case Cast => CastRules(c1, c2, c3)
    case SizeofLike => SizeofLikeRules(c1, c2, c3)
    case IntLike => IntLikeRules(c1, c2, c3)
    case DeclHead => DeclHeadRules(c1, c2, c3)
    case Decl => DeclRules(c1, c2, c3)
    case TypedefLike => TypedefLikeRules(c1, c2, c3)
    case StructLike => StructLikeRules(c1, c2, c3)
    case StructHead => StructHeadRules(c1, c2, c3)
    case FnDecl => FnDeclRules(c1, c2, c3)
    case Function => FunctionRules(c1, c2, c3)
    case Lbrace => LbraceRules(c1, c2, c3)
    case DoLike => DoLikeRules(c1, c2, c3)
    case IfLike => IfLikeRules(c1, c2, c3)
    case ForLike => ForLikeRules(c1, c2, c3)
    case ElseLike => ElseLikeRules(c1, c2, c3)
    case IfClause => IfClauseRules(c1, c2, c3)
    case IfHead => IfHeadRules(c1, c2, c3)
    case ElseHead => ElseHeadRules(c1, c2, c3)
    case CaseLike => CaseLikeRules(c1, c2, c3)
    case Stmt => StmtRules(c1, c2, c3, forceLines)
    case Tag => TagRules(c1, c2, c3)
    case Semi => SemiRules(c1, c2, c3)
    case Lproc => LprocRules(c1, c2, c3)
    case SectionScrap => SectionScrapRules(c1, c2, c3)
    case Insert => InsertRules(c1, c2, c3)
    case Prelangle => Angle(LESS, 84)
    case Prerangle => Angle(GREATER, 85)
    case Langle => LangleRules(c1, c2, c3)
    case PublicLike => PublicLikeRules(c1, c2, c3)
    case Colcol => ColcolRules(c1, c2, c3)
    case NewLike => NewLikeRules(c1, c2, c3)
    case OperatorLike => OperatorLikeRules(c1, c2, c3)
    case CatchLike => CatchLikeRules(c1, c2, c3)
    case Base => BaseRules(c1, c2, c3)
    case RawRpar => RawRparRules(c1, c2, c3)
    case RawUnorbin => RawUnorbinRules(c1, c2, c3)
    case ConstLike => ConstLikeRules(c1, c2, c3)
    case RawInt => RawIntRules(c1, c2, c3)
    case _ => NoMatch
  }

  // Closing a macro argument, and gluing an insert onto the scrap before it, come first.
  function Adjacent(c0: Cat, c1: Cat, c2: Cat, c3: Cat): (p: Production)
    ensures Window(c0, c1, c2, c3) ==> Sound(p, c0, c1, c2, c3)
  {
    if c1 == EndArg && !(c0 == Semi || c0 == RawInt || c0 == RawUnorbin || c0 == RawRpar || c0 == ConstLike) then
      if c0 == BeginArg then Squash(0, 2, Exp, -2, 110) else Squash(0, 2, EndArg, -1, 111)
    else NextInsert(c0, c1, c2, c3)
  }

  function NextInsert(c0: Cat, c1: Cat, c2: Cat, c3: Cat): (p: Production)
    ensures Window(c0, c1, c2, c3) ==> Sound(p, c0, c1, c2, c3)
  {
    if c1 == Insert then Squash(0, 2, c0, -2, 0) else FurtherInsert(c0, c1, c2, c3)
  }

  function FurtherInsert(c0: Cat, c1: Cat, c2: Cat, c3: Cat): (p: Production)
    ensures Window(c0, c1, c2, c3) ==> Sound(p, c0, c1, c2, c3)
  {
    if c2 == Insert then Squash(1, 2, c1, -1, 0)
    else if c3 == Insert then Squash(2, 2, c2, 0, 0)
    else NoMatch
  }

  // The production that fires on the window c0..c3, tried in CWEAVE's order.
  // It takes the scraps it replaces once and in order, consumes only scraps that are
  // there, and lowers the rank of the category when it replaces a single scrap.
  function Fires(c0: Cat, c1: Cat, c2: Cat, c3: Cat, forceLines: bool): (p: Production)
    ensures Window(c0, c1, c2, c3) ==> Sound(p, c0, c1, c2, c3)
    ensures c1 == Insert ==> p.Match?
  {
    var p := Adjacent(c0, c1, c2, c3);
    if p.Match? then p else ByFirst(c0, c1, c2, c3, forceLines)
  }

  // ---------- what every production has in common ----------

  // The scraps of the window that l takes, in order, are exactly a..b, and its
  // tokens are characters other than $, < and >; bare ones do in either mode.
  predicate TakesInOrder(l: Layout, a: nat, b: nat) {
    match l
    case End => a == b
    case Sub(i, r) => i == a < b && TakesInOrder(r, a + 1, b)
    case Big(t, r) => Plain(t) && TakesInOrder(r, a, b)
    case Raw(t, r) => Plain(t) && Belongs(t) == Maybe && TakesInOrder(r, a, b)
  }

  predicate Plain(t: Token) { t.Ch? && t.code != DOLLAR.code && t.code != LESS.code && t.code != GREATER.code }

  // The one-scrap rewrites strictly lower this rank.
  function Rank(c: Cat): nat {
    if c.RawInt? || c.OperatorLike? || c.ConstLike? || c.PublicLike? then 3
    else if c.IntLike? || c.Cast? || c.NewLike? || c.IfClause? || c.SectionScrap? then 2
    else if c.Exp? || c.DeclHead? || c.IfHead? || c.ElseLike? || c.Semi? || c.Prelangle?
         || c.Prerangle? || c.Colon? || c.RawRpar? || c.RawUnorbin? then 1
    else 0
  }

  function Nth(c0: Cat, c1: Cat, c2: Cat, c3: Cat, i: nat): Cat {
    if i == 0 then c0 else if i == 1 then c1 else if i == 2 then c2 else if i == 3 then c3 else Zero
  }

  predicate IsAngleCat(c: Cat) { c == Prelangle || c == Prerangle }

  // An insert next to a < or >.
  predicate Glued(c: Cat, d: Cat) { (IsAngleCat(c) && d == Insert) || (c == Insert && IsAngleCat(d)) }

  // A preprocessor line runs from lproc to rproc and becomes an insert: where one may begin,
  // and where one may end.
  predicate Opens(c: Cat) { c == Insert || c == Lproc }

  predicate Closes(c: Cat) { c == Insert || c == Rproc }

  predicate IsAngle(p: Production) { p.Match? && (p.number == 84 || p.number == 85) }

  predicate Sound(p: Production, c0: Cat, c1: Cat, c2: Cat, c3: Cat) {
    p.Match? ==>
      && 1 <= p.k && p.at + p.k <= 4 && p.d <= p.at + 1 && p.cat != Zero
      && Nth(c0, c1, c2, c3, p.at + p.k - 1) != Zero
      && (p.k == 1 ==> Rank(p.cat) < Rank(Nth(c0, c1, c2, c3, p.at)))
      && (IsAngleCat(p.cat) ==>
            p.k == 2 && p.cat == (if p.number == 83 && p.at == 0 then c1 else Nth(c0, c1, c2, c3, p.at)))
      && (p.keep ==> p.k == 1 && p.reserve == None)
      && (IsAngleCat(p.cat) ==> Glued(Nth(c0, c1, c2, c3, p.at), Nth(c0, c1, c2, c3, p.at + 1)))
      && (Opens(p.cat) ==> Opens(Nth(c0, c1, c2, c3, p.at)))
      && (Closes(p.cat) ==> Closes(Nth(c0, c1, c2, c3, p.at + p.k - 1)))
      && (p.cat == Insert && p.d >= p.at ==> c0 == Insert && p.d == 0)
      && (p.d > 0 ==> p.d == 1 && (p.at == 1 || (p.at == 0 && p.k == 2 && c2 != Insert)))
      && (p.reserve.Some? ==> p.k >= 2 && p.reserve.value < p.at + p.k && !IsAngleCat(p.cat))
      && (if IsAngle(p) then
            p == (if c0 == Prelangle then Angle(LESS, 84) else Angle(GREATER, 85)) && IsAngleCat(c0)
          else
            p.seed == Maybe && (!p.keep ==> TakesInOrder(p.layout, p.at, p.at + p.k)))
  }

  // Real scraps come first in a window, padding after them.
  predicate Window(c0: Cat, c1: Cat, c2: Cat, c3: Cat) {
    c0 != Zero && (c1 == Zero ==> c2 == Zero) && (c2 == Zero ==> c3 == Zero)
  }

  // Which production fires on a window.
  type Table = (Cat, Cat, Cat, Cat) -> Production

  // Sound productions, and one at least wherever an insert comes next.
  ghost predicate SoundTable(table: Table) {
    forall c0, c1, c2, c3 :: Window(c0, c1, c2, c3) ==>
      Sound(table(c0, c1, c2, c3), c0, c1, c2, c3) && (c1 == Insert ==> table(c0, c1, c2, c3).Match?)
  }

  // CWEAVE's table.
  function Cweave(forceLines: bool): (table: Table)
    ensures SoundTable(table)
  {
    (c0, c1, c2, c3) => Fires(c0, c1, c2, c3, forceLines)
  }
}
