// Reading with a change file is applying a patch.
module Patches {
  import opened Wrappers
  import opened ChangeFiles

  // A change: anything, an @x line, blank lines, the lines to be replaced, an @y line, the
  // lines to replace them, an @z line.
  datatype Block = Block(lead: seq<Line>, x: Line, blanks: nat, was: seq<Line>, y: Line, now: seq<Line>, z: Line)

  ghost predicate WellFormed(b: Block) {
    && (forall i :: 0 <= i < |b.lead| ==> Idle(b.lead[i]))
    && Control(b.x) == 'x' && Control(b.y) == 'y' && Control(b.z) == 'z'
    && b.was != [] && b.was[0] != ""
    && (forall i :: 1 <= i < |b.was| ==> Text(b.was[i]))
    && (forall i :: 0 <= i < |b.now| ==> Text(b.now[i]))
  }

  predicate Text(l: Line) { Control(l) != 'x' && Control(l) != 'y' && Control(l) != 'z' }

  predicate Idle(l: Line) { Text(l) && Control(l) != 'i' }

  function Blank(n: nat): seq<Line> { if n == 0 then [] else [""] + Blank(n - 1) }

  // The lines of a block from its @x on, from its second line to be replaced on, from its
  // replacement on.
  function Head(b: Block): seq<Line> { b.lead + ([b.x] + Blank(b.blanks)) }

  function Body(b: Block, i: nat, rest: seq<Line>): seq<Line>
    requires i <= |b.was|
  { b.was[i..] + ([b.y] + Reply(b, 0, rest)) }

  function Reply(b: Block, i: nat, rest: seq<Line>): seq<Line>
    requires i <= |b.now|
  { b.now[i..] + ([b.z] + rest) }

  // A change file: blocks, and then lines without meaning.
  function FileOf(blocks: seq<Block>, tail: seq<Line>): seq<Line>
    requires forall i :: 0 <= i < |blocks| ==> blocks[i].was != []
  {
    if blocks == [] then tail else Head(blocks[0]) + Body(blocks[0], 0, FileOf(blocks[1..], tail))
  }

  ghost predicate WellFormedFile(blocks: seq<Block>, tail: seq<Line>) {
    && (forall i :: 0 <= i < |blocks| ==> WellFormed(blocks[i]))
    && (forall i :: 0 <= i < |tail| ==> Idle(tail[i]))
  }

  // ---------- the patch ----------

  // The outcome: the lines, the complaints, whether every block was come to, and whether the
  // web ended within a block.
  datatype Patched = Patched(lines: seq<Line>, complaints: seq<Complaint>, reached: bool, cut: bool)

  // Lines of the web that differ from those to be replaced, the control letters of these
  // taken as small.
  function Mismatches(web: seq<Line>, ls: seq<Line>): nat
    requires |ls| <= |web|
  {
    if ls == [] then 0 else (if web[0] == Lowered(ls[0]) then 0 else 1) + Mismatches(web[1..], ls[1..])
  }

  function LoweredAll(ls: seq<Line>): seq<Line> {
    if ls == [] then [] else [Lowered(ls[0])] + LoweredAll(ls[1..])
  }

  function Failures(n: nat): seq<Complaint> { if n > 0 then [FailedToMatch(n)] else [] }

  // Wherever the first line of the next block is met, as many lines of the web as it has
  // are replaced.
  function Patch(web: seq<Line>, blocks: seq<Block>): Patched
    requires forall i :: 0 <= i < |blocks| ==> blocks[i].was != []
    decreases |web|
  {
    if web == [] then Patched([], [], blocks == [], false)
    else if blocks != [] && web[0] == blocks[0].was[0] then
      var b := blocks[0];
      if |web| < |b.was| then Patched([], [WebEnded], false, true)
      else
        var p := Patch(web[|b.was|..], blocks[1..]);
        p.(lines := LoweredAll(b.now) + p.lines,
           complaints := Failures(Mismatches(web[1..], b.was[1..])) + p.complaints)
    else
      var p := Patch(web[1..], blocks);
      p.(lines := [web[0]] + p.lines)
  }

  // ---------- finding the blocks ----------

  lemma {:induction false} PrimeIdle(lead: seq<Line>, rest: seq<Line>)
    requires forall i :: 0 <= i < |lead| ==> Idle(lead[i])
    ensures Prime(lead + rest) == Prime(rest)
  {
    if lead == [] {
      assert lead + rest == rest;
    } else {
      PrimeIdle(lead[1..], rest);
      assert (lead + rest)[0] == lead[0] && (lead + rest)[1..] == lead[1..] + rest;
    }
  }

  lemma {:induction false} FirstLineBlank(n: nat, rest: seq<Line>)
    ensures FirstLine(Blank(n) + rest) == FirstLine(rest)
  {
    if n == 0 {
      assert Blank(0) + rest == rest;
    } else {
      FirstLineBlank(n - 1, rest);
      assert (Blank(n) + rest)[1..] == Blank(n - 1) + rest;
    }
  }

  // Priming comes to the first line of the next block, or finds there is none.
  lemma PrimeBlock(b: Block, rest: seq<Line>)
    requires WellFormed(b)
    ensures Prime(Head(b) + Body(b, 0, rest)) == Primed(b.was[0], Body(b, 1, rest), [])
  {
    var body := Body(b, 0, rest);
    var after := [b.x] + Blank(b.blanks) + body;
    assert Head(b) + body == b.lead + after;
    PrimeIdle(b.lead, after);
    assert after[0] == b.x && after[1..] == Blank(b.blanks) + body;
    FirstLineBlank(b.blanks, body);
    assert body[0] == b.was[0] && body[1..] == Body(b, 1, rest);
  }

  lemma PrimeTail(tail: seq<Line>)
    requires forall i :: 0 <= i < |tail| ==> Idle(tail[i])
    ensures Prime(tail) == Primed("", [], [])
  {
    assert tail + [] == tail;
    PrimeIdle(tail, []);
  }

  // ---------- reading through a block ----------

  lemma BodyStep(b: Block, i: nat, rest: seq<Line>)
    requires i <= |b.was|
    ensures var l := Body(b, i, rest);
            && l != []
            && (if i == |b.was| then l[0] == b.y && l[1..] == Reply(b, 0, rest)
                else l[0] == b.was[i] && l[1..] == Body(b, i + 1, rest))
  {
  }

  // The lines to be replaced, the first of them read already.
  lemma {:induction false} CheckBlock(r: Reader, b: Block, i: nat, rest: seq<Line>, n: nat)
    requires WellFormed(b) && 1 <= i <= |b.was| && r.change == Body(b, i, rest) && !r.ended
    ensures var s := Check(r, n);
            var left := b.was[i..];
            if |r.web| < |left| then s.ended && s.complaints == r.complaints + [WebEnded]
            else
              && !s.ended && s.changing && s.web == r.web[|left|..] && s.change == Reply(b, 0, rest)
              && s.complaints == r.complaints + Failures(n + Mismatches(r.web, left))
    decreases |b.was| - i
  {
    var left := b.was[i..];
    BodyStep(b, i, rest);
    if i < |b.was| {
      assert left[0] == b.was[i] && left[1..] == b.was[i + 1..];
      if r.web != [] {
        var t := r.(change := r.change[1..], pending := Lowered(b.was[i]), changing := false, web := r.web[1..]);
        CheckBlock(t, b, i + 1, rest, if r.web[0] == Lowered(b.was[i]) then n else n + 1);
        if |r.web| >= |left| { assert r.web[1..][|left| - 1..] == r.web[|left|..]; }
      }
    }
  }

  // The lines that replace them, and the @z line.
  lemma {:induction false} ReplyBlock(r: Reader, b: Block, i: nat, rest: seq<Line>)
    requires WellFormed(b) && i <= |b.now| && r.change == Reply(b, i, rest) && r.changing && !r.ended
    ensures var p := Prime(rest);
            var s := r.(change := p.rest, pending := p.first, changing := false,
                        complaints := r.complaints + p.complaints);
            Lines(r) == LoweredAll(b.now[i..]) + Lines(s) && Final(r) == Final(s)
    decreases |b.now| - i
  {
    if i == |b.now| {
      assert r.change[0] == b.z && r.change[1..] == rest;
    } else {
      assert r.change[0] == b.now[i] && r.change[1..] == Reply(b, i + 1, rest);
      assert b.now[i..][1..] == b.now[i + 1..];
      ReplyBlock(r.(change := r.change[1..]), b, i + 1, rest);
    }
  }

  // ---------- reading is patching ----------

  // The reader is at the next block, if there is one.
  ghost predicate Ready(r: Reader, blocks: seq<Block>, tail: seq<Line>) {
    && !r.changing && !r.ended && WellFormedFile(blocks, tail)
    && if blocks == [] then r.pending == ""
       else r.pending == blocks[0].was[0] && r.change == Body(blocks[0], 1, FileOf(blocks[1..], tail))
  }

  // Priming makes the reader ready for the blocks.
  lemma PrimeReady(r: Reader, blocks: seq<Block>, tail: seq<Line>)
    requires WellFormedFile(blocks, tail) && !r.changing && !r.ended
    ensures var p := Prime(FileOf(blocks, tail));
            p.complaints == [] && Ready(r.(change := p.rest, pending := p.first), blocks, tail)
  {
    if blocks == [] { PrimeTail(tail); } else { PrimeBlock(blocks[0], FileOf(blocks[1..], tail)); }
  }

  // A line of the web that is not the first of the next block is passed on as it is.
  lemma PlainLine(r: Reader)
    requires !r.changing && !r.ended && r.web != [] && !(r.web[0] == r.pending != "")
    ensures var s := r.(web := r.web[1..]); Lines(r) == [r.web[0]] + Lines(s) && Final(r) == Final(s)
  {
  }

  // A block is met: its lines are replaced.
  lemma BlockMet(r: Reader, blocks: seq<Block>, tail: seq<Line>) returns (s: Reader)
    requires Ready(r, blocks, tail) && blocks != [] && r.web != [] && r.web[0] == blocks[0].was[0]
    ensures var b := blocks[0];
            if |r.web| < |b.was| then Lines(r) == [] && Final(r).complaints == r.complaints + [WebEnded]
            else
              && Ready(s, blocks[1..], tail) && s.web == r.web[|b.was|..]
              && s.complaints == r.complaints + Failures(Mismatches(r.web[1..], b.was[1..]))
              && Lines(r) == LoweredAll(b.now) + Lines(s) && Final(r) == Final(s)
  {
    var b, rest := blocks[0], FileOf(blocks[1..], tail);
    var t := r.(web := r.web[1..]);
    CheckBlock(t, b, 1, rest, 0);
    s := t;
    if |r.web| >= |b.was| {
      assert r.web[1..][|b.was| - 1..] == r.web[|b.was|..];
      s := BlockReplaced(r, Check(t, 0), blocks, tail);
    }
  }

  lemma BlockReplaced(r: Reader, u: Reader, blocks: seq<Block>, tail: seq<Line>) returns (s: Reader)
    requires WellFormedFile(blocks, tail) && blocks != [] && !r.changing && !r.ended && r.web != []
    requires r.web[0] == r.pending != "" && u == Check(r.(web := r.web[1..]), 0)
    requires u.changing && !u.ended && u.change == Reply(blocks[0], 0, FileOf(blocks[1..], tail))
    ensures Ready(s, blocks[1..], tail) && s.web == u.web && s.complaints == u.complaints
    ensures Lines(r) == LoweredAll(blocks[0].now) + Lines(s) && Final(r) == Final(s)
  {
    var b, rest := blocks[0], FileOf(blocks[1..], tail);
    ReplyBlock(u, b, 0, rest);
    assert b.now[0..] == b.now;
    var p := Prime(rest);
    s := u.(change := p.rest, pending := p.first, changing := false);
    PrimeReady(u.(changing := false), blocks[1..], tail);
    assert u.complaints + [] == u.complaints;
    assert GetLine(r) == GetLine(u);
  }

  // The lines that get_line delivers are those of the patch; it complains of what the patch
  // complains of; and something is left to be matched at the end exactly if a block was not
  // come to.
  lemma {:induction false} ReadingPatches(r: Reader, blocks: seq<Block>, tail: seq<Line>)
    requires Ready(r, blocks, tail)
    ensures var p := Patch(r.web, blocks);
            && Lines(r) == p.lines && Final(r).complaints == r.complaints + p.complaints
            && (!p.cut ==> (Final(r).pending == "" <==> p.reached))
    decreases |r.web|
  {
    if r.web != [] {
      if blocks != [] && r.web[0] == blocks[0].was[0] {
        var s := BlockMet(r, blocks, tail);
        if |r.web| >= |blocks[0].was| {
          ReadingPatches(s, blocks[1..], tail);
          Associative(r.complaints, Failures(Mismatches(r.web[1..], blocks[0].was[1..])),
                      Patch(s.web, blocks[1..]).complaints);
        }
      } else {
        PlainLine(r);
        ReadingPatches(r.(web := r.web[1..]), blocks, tail);
      }
    }
  }

  // From the start: a web read with a well-formed change file is the web patched.
  lemma ChangeFilesPatch(web: seq<Line>, blocks: seq<Block>, tail: seq<Line>)
    requires WellFormedFile(blocks, tail)
    ensures var r := Start(web, FileOf(blocks, tail));
            var p := Patch(web, blocks);
            && Lines(r) == p.lines && Final(r).complaints == p.complaints
            && (!p.cut ==> (Final(r).pending == "" <==> p.reached))
  {
    var p := Prime(FileOf(blocks, tail));
    var r := Start(web, FileOf(blocks, tail));
    PrimeReady(Reader(web, [], "", false, false, []), blocks, tail);
    ReadingPatches(r, blocks, tail);
    assert [] + Patch(web, blocks).complaints == Patch(web, blocks).complaints;
  }

  // ---------- what the patch says ----------

  // Nothing is complained of, and the web is not cut short, exactly if every block come to
  // matches the web line for line.
  ghost predicate Faithful(web: seq<Line>, blocks: seq<Block>)
    requires forall i :: 0 <= i < |blocks| ==> blocks[i].was != []
    decreases |web|
  {
    web != [] ==>
      if blocks != [] && web[0] == blocks[0].was[0] then
        && |web| >= |blocks[0].was|
        && (forall i :: 1 <= i < |blocks[0].was| ==> web[i] == Lowered(blocks[0].was[i]))
        && Faithful(web[|blocks[0].was|..], blocks[1..])
      else Faithful(web[1..], blocks)
  }

  lemma {:induction false} NoMismatch(web: seq<Line>, ls: seq<Line>)
    requires |ls| <= |web|
    ensures Mismatches(web, ls) == 0 <==> forall i :: 0 <= i < |ls| ==> web[i] == Lowered(ls[i])
  {
    if ls != [] {
      NoMismatch(web[1..], ls[1..]);
      if forall i :: 0 <= i < |ls| ==> web[i] == Lowered(ls[i]) {
        assert forall i :: 0 <= i < |ls| - 1 ==> web[1..][i] == web[i + 1] && ls[1..][i] == ls[i + 1];
      } else {
        var i :| 0 <= i < |ls| && web[i] != Lowered(ls[i]);
        if i > 0 { assert web[1..][i - 1] == web[i] && ls[1..][i - 1] == ls[i]; }
      }
    }
  }

  lemma {:induction false} NoComplaints(web: seq<Line>, blocks: seq<Block>)
    requires forall i :: 0 <= i < |blocks| ==> blocks[i].was != []
    ensures Patch(web, blocks).complaints == [] <==> Faithful(web, blocks)
    ensures Faithful(web, blocks) ==> !Patch(web, blocks).cut
    decreases |web|
  {
    if web != [] {
      if blocks != [] && web[0] == blocks[0].was[0] {
        var b := blocks[0];
        if |web| >= |b.was| {
          NoMismatch(web[1..], b.was[1..]);
          BlockMatches(web, b);
          NoComplaints(web[|b.was|..], blocks[1..]);
        }
      } else {
        NoComplaints(web[1..], blocks);
      }
    }
  }

  lemma BlockMatches(web: seq<Line>, b: Block)
    requires 1 <= |b.was| <= |web|
    ensures (forall i :: 0 <= i < |b.was[1..]| ==> web[1..][i] == Lowered(b.was[1..][i]))
       <==> (forall i :: 1 <= i < |b.was| ==> web[i] == Lowered(b.was[i]))
  {
    var w, v := web[1..], b.was[1..];
    assert forall i :: 0 <= i < |v| ==> w[i] == web[i + 1] && v[i] == b.was[i + 1];
    if forall i :: 0 <= i < |v| ==> w[i] == Lowered(v[i]) {
      forall i | 1 <= i < |b.was|
        ensures web[i] == Lowered(b.was[i])
      {
        assert w[i - 1] == Lowered(v[i - 1]);
      }
    }
  }

  // A web line that begins with a capital control code is never matched by its own copy,
  // except as the first line of a block.
  lemma CapitalNeverMatches(l: Line)
    requires |l| >= 2 && l[0] == '@' && 'A' <= l[1] <= 'Z'
    ensures l != Lowered(l) && Mismatches([l], [l]) == 1
  {
    assert l[1] != Lowered(l)[1];
    assert Mismatches([l][1..], [l][1..]) == 0;
  }
}
