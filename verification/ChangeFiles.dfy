// Change files: what the reader makes of a web and a change file, line by line, and the
// patch that a well-formed change file describes.
module ChangeFiles {
  import opened Wrappers

  type Line = string

  datatype Complaint =
    | MissingX | EndedAfterX | EndedBeforeY | WhereIsY | FailedToMatch(n: nat) | WebEnded
    | EndedWithoutZ | WhereIsZ

  function Lower(c: char): char { if 'A' <= c <= 'Z' then c + 32 as char else c }

  // The control letter of a line that begins with @, in lower case; a space if there is none.
  function Control(l: Line): char { if |l| >= 2 && l[0] == '@' then Lower(l[1]) else ' ' }

  // The line with its control letter in lower case.
  function Lowered(l: Line): Line { if |l| >= 2 && l[0] == '@' then l[1 := Lower(l[1])] else l }

  // ---------- reading ----------

  // What has been found in the change file: the first line to be matched, "" if none; what
  // is left of the file; what there was to complain of.
  datatype Primed = Primed(first: Line, rest: seq<Line>, complaints: seq<Complaint>)

  // prime_the_change_buffer: the next @x line, and the first line after it that is not blank.
  function Prime(change: seq<Line>): (p: Primed)
    ensures |p.rest| <= |change|
  {
    if change == [] then Primed("", [], [])
    else if Control(change[0]) == 'x' then FirstLine(change[1..])
    else
      var p := Prime(change[1..]);
      var c := Control(change[0]);
      if c == 'y' || c == 'z' || c == 'i' then p.(complaints := [MissingX] + p.complaints) else p
  }

  function FirstLine(change: seq<Line>): (p: Primed)
    ensures |p.rest| <= |change|
  {
    if change == [] then Primed("", [], [EndedAfterX])
    else if change[0] == "" then FirstLine(change[1..])
    else Primed(change[0], change[1..], [])
  }

  // The reader: lines to come of either file, the line to be matched, whether lines come
  // from the change file, whether the input has ended, the complaints so far.
  datatype Reader = Reader(web: seq<Line>, change: seq<Line>, pending: Line, changing: bool, ended: bool,
                           complaints: seq<Complaint>)

  function Complaining(r: Reader, c: Complaint): Reader { r.(complaints := r.complaints + [c]) }

  // check_change, once the first line has matched: the lines up to @y against those of the
  // web, n of which have failed to match so far.
  function Check(r: Reader, n: nat): (s: Reader)
    ensures |s.web| + |s.change| <= |r.web| + |r.change|
    decreases |r.change|
  {
    if r.change == [] then Complaining(r.(pending := "", changing := false), EndedBeforeY)
    else
      var l, rest := r.change[0], r.change[1..];
      if Control(l) == 'y' then
        var s := r.(change := rest, changing := true);
        if n > 0 then Complaining(s, FailedToMatch(n)) else s
      else
        var s := if Control(l) == 'x' || Control(l) == 'z' then Complaining(r, WhereIsY) else r;
        var t := s.(change := rest, pending := Lowered(l), changing := false);
        if r.web == [] then Complaining(t.(ended := true), WebEnded)
        else Check(t.(web := r.web[1..]), if r.web[0] == Lowered(l) then n else n + 1)
  }

  // A line of the change file; nothing if it was @z, after which the web goes on.
  function ChangeLine(r: Reader): (Reader, Option<Line>) {
    if r.change == [] then (Complaining(r.(pending := "", changing := false), EndedWithoutZ), None)
    else
      var l, s := r.change[0], r.(change := r.change[1..]);
      if Control(l) == 'z' then
        var p := Prime(s.change);
        (s.(change := p.rest, pending := p.first, changing := false, complaints := s.complaints + p.complaints), None)
      else if Control(l) == 'x' || Control(l) == 'y' then (Complaining(s, WhereIsZ), Some(Lowered(l)))
      else (s, Some(Lowered(l)))
  }

  // get_line, for lines that include no other file: the next line, if there is one.
  function GetLine(r: Reader): (x: (Reader, Option<Line>))
    requires !r.ended
    ensures x.1.None? ==> x.0.ended
    ensures x.1.Some? ==> !x.0.ended && |x.0.web| + |x.0.change| < |r.web| + |r.change|
    decreases |r.web| + |r.change|, if r.changing then 1 else 0
  {
    if r.changing then
      var (s, l) := ChangeLine(r);
      if l.Some? then (s, l) else GetLine(s)
    else if r.web == [] then (r.(ended := true), None)
    else
      var l, s := r.web[0], r.(web := r.web[1..]);
      if l == r.pending != "" then
        var t := Check(s, 0);
        if t.ended then (t, None)
        else if t.changing then GetLine(t)
        else (t, Some(""))
      else (s, Some(l))
  }

  // All lines to come.
  function Lines(r: Reader): seq<Line>
    requires !r.ended
    decreases |r.web| + |r.change|
  {
    var (s, l) := GetLine(r);
    if l.None? then [] else [l.value] + Lines(s)
  }

  function Final(r: Reader): Reader
    requires !r.ended
    decreases |r.web| + |r.change|
  {
    var (s, l) := GetLine(r);
    if l.None? then s else Final(s)
  }

  // reset_input
  function Start(web: seq<Line>, change: seq<Line>): Reader {
    var p := Prime(change);
    Reader(web, p.rest, p.first, false, false, p.complaints)
  }
}
