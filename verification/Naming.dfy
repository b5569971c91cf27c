// Which identifier of a scrap is made a reserved word: the first that is read in it.
module Naming {
  import opened Wrappers
  import opened Scraps
  import opened Translate
  import opened Paths

  // From position i to position j of memory nothing is marked as inserted.
  predicate Unmarked(a: Arena, i: nat, j: nat)
    requires j <= |a.mem|
  {
    forall l :: i <= l < j ==> a.mem[l] != INSERTED
  }

  // The path leads, by positions in memory, from text t to a name, and in none of the texts it
  // goes through is anything marked as inserted before it.
  ghost predicate Sees(a: Arena, t: nat, path: seq<nat>)
    decreases |path|
  {
    && t < a.Count() && path != []
    && a.starts[t] <= path[0] < a.starts[t + 1] && path[0] < |a.mem|
    && Unmarked(a, a.starts[t], path[0])
    && match a.mem[path[0]]
       case Id(_) => |path| == 1
       case Res(_) => |path| == 1
       case Text(u) => u < t && Sees(a, u, path[1..])
       case Inner(u) => u < t && Sees(a, u, path[1..])
       case _ => false
  }

  // The path leads to loc, and every other one from position j on is later.
  ghost predicate SeenFirst(a: Arena, t: nat, j: nat, path: seq<nat>, loc: nat) {
    && Sees(a, t, path) && path[0] >= j && path[|path| - 1] == loc
    && forall q :: Sees(a, t, q) && q[0] >= j ==> q == path || Earlier(path, q)
  }

  // The search finds a name exactly if one is to be seen, and then the first.
  lemma {:induction false} FirstIdentIsFirst(a: Arena, t: nat) returns (path: seq<nat>)
    requires t < a.Count()
    ensures FirstIdent(a, t).None? ==> forall q :: !Sees(a, t, q)
    ensures FirstIdent(a, t).Some? ==> SeenFirst(a, t, a.starts[t], path, FirstIdent(a, t).value)
    decreases t, |a.mem| + 1
  {
    path := [];
    if a.starts[t] <= |a.mem| { path := FirstFrom(a, t, a.starts[t]); }
    assert FirstIdent(a, t) == FirstIdentFrom(a, t, a.starts[t]);
    assert a.starts[t] > |a.mem| ==> FirstIdentFrom(a, t, a.starts[t]).None?;
    assert forall q :: Sees(a, t, q) ==> q[0] >= a.starts[t];
  }

  lemma {:induction false} FirstFrom(a: Arena, t: nat, j: nat) returns (path: seq<nat>)
    requires t < a.Count() && a.starts[t] <= j <= |a.mem| && Unmarked(a, a.starts[t], j)
    ensures FirstIdentFrom(a, t, j).None? ==> forall q :: Sees(a, t, q) ==> q[0] < j
    ensures FirstIdentFrom(a, t, j).Some? ==> SeenFirst(a, t, j, path, FirstIdentFrom(a, t, j).value)
    decreases t, |a.mem| - j
  {
    path := [];
    if j < a.starts[t + 1] && j < |a.mem| {
      match a.mem[j]
      case Id(_) => path := [j];
        forall q | Sees(a, t, q) && q[0] >= j ensures q == path || Earlier(path, q) { }
      case Res(_) => path := [j];
        forall q | Sees(a, t, q) && q[0] >= j ensures q == path || Earlier(path, q) { }
      case Text(u) => path := FirstInside(a, t, j, u);
      case Inner(u) => path := FirstInside(a, t, j, u);
      case Ch(_) =>
        if a.mem[j] != INSERTED { path := FirstFrom(a, t, j + 1); }
      case Section(_) => path := FirstFrom(a, t, j + 1);
    }
  }

  // At a reference: what is seen in the text referred to comes first.
  lemma {:induction false} FirstInside(a: Arena, t: nat, j: nat, u: nat) returns (path: seq<nat>)
    requires t < a.Count() && a.starts[t] <= j < a.starts[t + 1] && j < |a.mem| && Unmarked(a, a.starts[t], j)
    requires a.mem[j] == Text(u) || a.mem[j] == Inner(u)
    ensures FirstIdentFrom(a, t, j).None? ==> forall q :: Sees(a, t, q) ==> q[0] < j
    ensures FirstIdentFrom(a, t, j).Some? ==> SeenFirst(a, t, j, path, FirstIdentFrom(a, t, j).value)
    decreases t, |a.mem| - j, 0
  {
    forall q | Sees(a, t, q) && q[0] == j
      ensures u < t && Sees(a, u, q[1..]) && q == [j] + q[1..]
    {
    }
    if u < t && FirstIdent(a, u).Some? {
      var inside := FirstIdentIsFirst(a, u);
      path := [j] + inside;
      assert path[1..] == inside;
      forall q | Sees(a, t, q) && q[0] >= j
        ensures q == path || Earlier(path, q)
      {
      }
    } else {
      path := FirstFrom(a, t, j + 1);
      if u < t { var none := FirstIdentIsFirst(a, u); }
    }
  }
}
