// The reader of web and change file, its buffers and flags updated in place.
module ChangeReader {
  import opened Wrappers
  import opened ChangeFiles

  class Input {
    var web: seq<Line>
    var change: seq<Line>
    var buffer: Line
    var changeBuffer: Line
    var changing: bool
    var inputHasEnded: bool
    var complaints: seq<Complaint>

    function State(): Reader
      reads this
    { Reader(web, change, changeBuffer, changing, inputHasEnded, complaints) }

    // reset_input
    constructor (web: seq<Line>, change: seq<Line>)
      ensures State() == Start(web, change)
    {
      this.web, this.change := web, change;
      buffer, changeBuffer, inputHasEnded, complaints := "", "", false, [];
      changing := true;
      new;
      PrimeTheChangeBuffer();
      changing := false;
    }

    // input_ln on the web; at its end the buffer is left empty.
    method InputWeb() returns (ok: bool)
      modifies this`web, this`buffer
      ensures ok == (old(web) != [])
      ensures if ok then buffer == old(web)[0] && web == old(web)[1..] else buffer == "" && web == []
    {
      if web == [] { buffer := ""; return false; }
      buffer, web := web[0], web[1..];
      return true;
    }

    method InputChange() returns (ok: bool)
      modifies this`change, this`buffer
      ensures ok == (old(change) != [])
      ensures if ok then buffer == old(change)[0] && change == old(change)[1..] else buffer == "" && change == []
    {
      if change == [] { buffer := ""; return false; }
      buffer, change := change[0], change[1..];
      return true;
    }

    method Complain(c: Complaint)
      modifies this`complaints
      ensures complaints == old(complaints) + [c]
    {
      complaints := complaints + [c];
    }

    method PrimeTheChangeBuffer()
      modifies this`change, this`buffer, this`changeBuffer, this`complaints
      ensures var p := Prime(old(change));
              changeBuffer == p.first && change == p.rest && complaints == old(complaints) + p.complaints
    {
      ghost var file, before := change, complaints;
      changeBuffer := "";
      var found := false;
      while !found
        invariant changeBuffer == "" && before + Prime(file).complaints
                  == complaints + (if found then FirstLine(change) else Prime(change)).complaints
        invariant Prime(file).first == (if found then FirstLine(change) else Prime(change)).first
        invariant Prime(file).rest == (if found then FirstLine(change) else Prime(change)).rest
        decreases |change|, !found
      {
        var ok := InputChange();
        if !ok { return; }
        var c := Control(buffer);
        if c == 'x' {
          found := true;
        } else if c == 'y' || c == 'z' || c == 'i' {
          Associative(complaints, [MissingX], Prime(change).complaints);
          Complain(MissingX);
        }
      }
      SkipBlankLines();
    }

    // The second loop: on to a line that is not blank.
    method SkipBlankLines()
      modifies this`change, this`buffer, this`changeBuffer, this`complaints
      ensures var p := FirstLine(old(change));
              && change == p.rest && complaints == old(complaints) + p.complaints
              && changeBuffer == if p.first == "" then old(changeBuffer) else p.first
    {
      ghost var file := change;
      buffer := "";
      while buffer == ""
        invariant changeBuffer == old(changeBuffer) && complaints == old(complaints)
        invariant if buffer == "" then FirstLine(file) == FirstLine(change)
                  else FirstLine(file) == Primed(buffer, change, [])
        decreases |change|, buffer == ""
      {
        var ok := InputChange();
        if !ok {
          Complain(EndedAfterX);
          return;
        }
      }
      changeBuffer := buffer;
    }

    // check_change, after lines_dont_match has been found false.
    method CheckChange()
      modifies this`web, this`change, this`buffer, this`changeBuffer, this`changing, this`inputHasEnded, this`complaints
      requires !changing && !inputHasEnded
      ensures State() == Check(old(State()), 0)
      ensures !changing && !inputHasEnded ==> buffer == ""
      ensures inputHasEnded ==> !changing
    {
      ghost var start := State();
      var n := 0;
      while true
        invariant !changing && !inputHasEnded && Check(State(), n) == Check(start, 0)
        decreases |change|
      {
        changing := true;
        var ok := InputChange();
        if !ok {
          Complain(EndedBeforeY);
          changeBuffer := "";
          changing := false;
          return;
        }
        var c := Control(buffer);
        buffer := Lowered(buffer);
        if c == 'x' || c == 'z' {
          Complain(WhereIsY);
        } else if c == 'y' {
          if n > 0 { Complain(FailedToMatch(n)); }
          return;
        }
        changeBuffer := buffer;
        changing := false;
        ok := InputWeb();
        if !ok {
          Complain(WebEnded);
          inputHasEnded := true;
          return;
        }
        if buffer != changeBuffer { n := n + 1; }
      }
    }

    // get_line, for lines that include no other file.
    method GetLine() returns (ok: bool)
      requires !inputHasEnded
      modifies this
      ensures var (s, l) := ChangeFiles.GetLine(old(State()));
              State() == s && ok == l.Some? && (ok ==> buffer == l.value)
    {
      ghost var start := State();
      while true
        invariant !inputHasEnded && ChangeFiles.GetLine(State()) == ChangeFiles.GetLine(start)
        decreases |web| + |change|, changing
      {
        if changing {
          var more := ReadChangeLine();
          if more { return true; }
        } else {
          ok := InputWeb();
          if !ok {
            inputHasEnded := true;
            return false;
          }
          if changeBuffer == "" || buffer != changeBuffer { return true; }
          CheckChange();
          if !changing { return !inputHasEnded; }
        }
      }
    }

    // A line of the change file; false after @z.
    method ReadChangeLine() returns (more: bool)
      requires changing
      modifies this`change, this`buffer, this`changeBuffer, this`changing, this`complaints
      ensures var (s, l) := ChangeLine(old(State()));
              State() == s && more == l.Some? && (more ==> buffer == l.value)
    {
      var ok := InputChange();
      if !ok {
        Complain(EndedWithoutZ);
        buffer := "@z";
        changeBuffer := "";
        changing := false;
        return false;
      }
      var c := Control(buffer);
      buffer := Lowered(buffer);
      if c == 'x' || c == 'y' {
        Complain(WhereIsZ);
      } else if c == 'z' {
        PrimeTheChangeBuffer();
        changing := false;
        return false;
      }
      return true;
    }

    // All lines that get_line delivers.
    method ReadAll() returns (lines: seq<Line>)
      requires !inputHasEnded
      modifies this
      ensures lines == Lines(old(State())) && State() == Final(old(State()))
    {
      ghost var start := State();
      lines := [];
      var ok := true;
      while ok
        invariant ok ==> !inputHasEnded && Lines(start) == lines + Lines(State()) && Final(State()) == Final(start)
        invariant !ok ==> lines == Lines(start) && State() == Final(start)
        decreases ok, |web| + |change|
      {
        ghost var before, now := State(), lines;
        ok := GetLine();
        if ok {
          lines := lines + [buffer];
          Associative(now, [buffer], Lines(State()));
        }
      }
    }

    // check_complete
    method CheckComplete() returns (complete: bool)
      ensures complete <==> State().pending == ""
    {
      complete := changeBuffer == "";
    }
  }
}
