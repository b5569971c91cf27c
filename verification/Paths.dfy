// How references lead from a text to the tokens of others: by the place of a token in the
// text, the place of a token in the text that it refers to, and so on.
module Paths {
  import opened Wrappers
  import opened Scraps

  function Reference(tok: Token): Option<nat> {
    match tok case Text(u) => Some(u) case Inner(u) => Some(u) case _ => None
  }

  // The path leads to a token that is no reference.
  ghost predicate Leads(a: Arena, toks: seq<Token>, bound: nat, path: seq<nat>)
    decreases |path|
  {
    && path != [] && path[0] < |toks|
    && match Reference(toks[path[0]])
       case None => |path| == 1
       case Some(u) => u < bound && Leads(a, a.TextAt(u), u, path[1..])
  }

  // That token.
  ghost function EndOf(a: Arena, toks: seq<Token>, bound: nat, path: seq<nat>): Token
    requires Leads(a, toks, bound, path)
    decreases |path|
  {
    var tok := toks[path[0]];
    if Reference(tok).None? then tok
    else EndOf(a, a.TextAt(Reference(tok).value), Reference(tok).value, path[1..])
  }

  // Some reference on the path is an inner one.
  ghost predicate ByInner(a: Arena, toks: seq<Token>, bound: nat, path: seq<nat>)
    requires Leads(a, toks, bound, path)
    decreases |path|
  {
    var tok := toks[path[0]];
    tok.Inner? || (tok.Text? && ByInner(a, a.TextAt(tok.text), tok.text, path[1..]))
  }

  // ---------- all paths ----------

  function Prefixed(i: nat, paths: seq<seq<nat>>): (r: seq<seq<nat>>)
    ensures |r| == |paths| && forall k :: 0 <= k < |r| ==> r[k] == [i] + paths[k]
  {
    seq(|paths|, k requires 0 <= k < |paths| => [i] + paths[k])
  }

  // The paths that begin at place i of toks or later.
  function PathsFrom(a: Arena, toks: seq<Token>, bound: nat, i: nat): seq<seq<nat>>
    requires i <= |toks|
    decreases bound, 1, |toks| - i
  {
    if i == |toks| then [] else PathsAt(a, toks[i], bound, i) + PathsFrom(a, toks, bound, i + 1)
  }

  function PathsAt(a: Arena, tok: Token, bound: nat, i: nat): seq<seq<nat>>
    decreases bound, 0, 0
  {
    match Reference(tok)
    case None => [[i]]
    case Some(u) => if u < bound then Prefixed(i, PathsFrom(a, a.TextAt(u), u, 0)) else []
  }

  // The earlier path parts from the later one to a smaller place.
  predicate Earlier(p: seq<nat>, q: seq<nat>) {
    p != [] && q != [] && (p[0] < q[0] || (p[0] == q[0] && Earlier(p[1..], q[1..])))
  }

  ghost predicate InOrder(paths: seq<seq<nat>>) {
    forall k, l :: 0 <= k < l < |paths| ==> Earlier(paths[k], paths[l])
  }

  // Those are all paths that there are.
  lemma {:induction false} PathsLead(a: Arena, toks: seq<Token>, bound: nat, i: nat, path: seq<nat>)
    requires i <= |toks|
    ensures path in PathsFrom(a, toks, bound, i) <==> Leads(a, toks, bound, path) && path[0] >= i
    decreases bound, 1, |toks| - i
  {
    if i < |toks| {
      PathsLead(a, toks, bound, i + 1, path);
      PathsAtLead(a, toks, bound, i, path);
    }
  }

  lemma {:induction false} PathsAtLead(a: Arena, toks: seq<Token>, bound: nat, i: nat, path: seq<nat>)
    requires i < |toks|
    ensures path in PathsAt(a, toks[i], bound, i) <==> Leads(a, toks, bound, path) && path[0] == i
    decreases bound, 0, 0
  {
    var r := Reference(toks[i]);
    if r.None? {
      assert |path| == 1 && path[0] == i ==> path == [i];
    } else if r.value < bound {
      var u := r.value;
      var below := PathsFrom(a, a.TextAt(u), u, 0);
      if path != [] && path[0] == i {
        PathsLead(a, a.TextAt(u), u, 0, path[1..]);
        assert path == [i] + path[1..];
        if path[1..] in below {
          var k :| 0 <= k < |below| && below[k] == path[1..];
          assert Prefixed(i, below)[k] == path;
        }
      }
      if path in Prefixed(i, below) {
        var k :| 0 <= k < |below| && Prefixed(i, below)[k] == path;
        assert path[1..] == below[k];
      }
    }
  }

  // Each is listed once, and in the order of the tokens.
  lemma {:induction false} PathsInOrder(a: Arena, toks: seq<Token>, bound: nat, i: nat)
    requires i <= |toks|
    ensures InOrder(PathsFrom(a, toks, bound, i))
    decreases bound, 1, |toks| - i
  {
    if i < |toks| {
      PathsInOrder(a, toks, bound, i + 1);
      var here, later := PathsAt(a, toks[i], bound, i), PathsFrom(a, toks, bound, i + 1);
      var r := Reference(toks[i]);
      if r.Some? && r.value < bound { PathsInOrder(a, a.TextAt(r.value), r.value, 0); }
      assert InOrder(here) by { HereInOrder(a, toks[i], bound, i); }
      forall k, l | 0 <= k < |here| && 0 <= l < |later|
        ensures Earlier(here[k], later[l])
      {
        PathsAtLead(a, toks, bound, i, here[k]);
        PathsLead(a, toks, bound, i + 1, later[l]);
        assert here[k] in here && later[l] in later;
      }
    }
  }

  lemma HereInOrder(a: Arena, tok: Token, bound: nat, i: nat)
    requires var r := Reference(tok);
             r.Some? && r.value < bound ==> InOrder(PathsFrom(a, a.TextAt(r.value), r.value, 0))
    ensures InOrder(PathsAt(a, tok, bound, i))
  {
    var r := Reference(tok);
    if r.Some? && r.value < bound {
      var below := PathsFrom(a, a.TextAt(r.value), r.value, 0);
      forall k, l | 0 <= k < l < |below|
        ensures Earlier([i] + below[k], [i] + below[l])
      {
        assert ([i] + below[k])[1..] == below[k] && ([i] + below[l])[1..] == below[l];
      }
    }
  }
}
