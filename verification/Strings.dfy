// Comparison of names: which comes first, or which abbreviates which.
module Strings {

  datatype Verdict = Less | Equal | Greater | Prefix | Extension | BadExtension

  // Length of the longest common beginning.
  function Common(j: string, k: string): (n: nat)
    ensures n <= |j| && n <= |k|
  {
    CommonFrom(j, k, 0)
  }

  function CommonFrom(j: string, k: string, i: nat): (n: nat)
    requires i <= |j| && i <= |k|
    ensures i <= n <= |j| && n <= |k|
    decreases |j| - i
  {
    if i == |j| || i == |k| || j[i] != k[i] then i else CommonFrom(j, k, i + 1)
  }

  lemma {:induction false} CommonFromMeans(j: string, k: string, i: nat)
    requires i <= |j| && i <= |k|
    ensures var n := CommonFrom(j, k, i);
            && (forall m :: i <= m < n ==> j[m] == k[m])
            && (n < |j| && n < |k| ==> j[n] != k[n])
    decreases |j| - i
  {
    if i < |j| && i < |k| && j[i] == k[i] { CommonFromMeans(j, k, i + 1); }
  }

  lemma CommonMeans(j: string, k: string)
    ensures var n := Common(j, k);
            j[..n] == k[..n] && (n < |j| && n < |k| ==> j[n] != k[n])
  {
    CommonFromMeans(j, k, 0);
  }

  // j against k: Prefix if j is a beginning of k, Extension the other way round.
  function Compare(j: string, k: string): Verdict {
    var n := Common(j, k);
    if n == |k| then (if n == |j| then Equal else Extension)
    else if n == |j| then Prefix
    else if j[n] < k[n] then Less
    else Greater
  }

  lemma SameAt(a: string, b: string, n: nat, i: nat)
    requires i < n <= |a| && n <= |b| && a[..n] == b[..n]
    ensures a[i] == b[i]
  {
    assert a[..n][i] == b[..n][i];
  }

  lemma CommonIs(j: string, k: string, n: nat)
    requires n <= |j| && n <= |k| && j[..n] == k[..n]
    requires n < |j| && n < |k| ==> j[n] != k[n]
    ensures Common(j, k) == n
  {
    CommonMeans(j, k);
    var c := Common(j, k);
    if c < n { SameAt(j, k, n, c); }
    if n < c { SameAt(j, k, c, n); }
  }

  // web_strcmp
  method WebStrcmp(j: string, k: string) returns (c: Verdict)
    ensures c == Compare(j, k)
  {
    var n := 0;
    while n < |k| && n < |j| && j[n] == k[n]
      invariant n <= |j| && n <= |k| && j[..n] == k[..n]
    {
      n := n + 1;
    }
    CommonIs(j, k, n);
    if n == |k| {
      if n == |j| { return Equal; } else { return Extension; }
    } else if n == |j| {
      return Prefix;
    } else if j[n] < k[n] {
      return Less;
    } else {
      return Greater;
    }
  }

  // One abbreviates the other.
  predicate Compatible(a: string, b: string) { a <= b || b <= a }

  // a and b differ, and a is first where they do.
  predicate Before(a: string, b: string) { Compare(a, b) == Less }

  // What each verdict means.
  lemma CompareCases(a: string, b: string)
    ensures Compare(a, b) == Equal <==> a == b
    ensures Compare(a, b) == Prefix <==> a < b
    ensures Compare(a, b) == Extension <==> b < a
    ensures Compare(a, b) == Less <==> Before(a, b)
    ensures Compare(a, b) == Greater <==> Before(b, a)
    ensures Compatible(a, b) <==> !Before(a, b) && !Before(b, a)
    ensures !(Before(a, b) && Before(b, a))
  {
    CommonMeans(a, b);
    var n := Common(a, b);
    CommonIs(b, a, n);
    if a <= b { CommonIs(a, b, |a|); }
    if b <= a { CommonIs(a, b, |b|); }
  }

  lemma BeforeAt(a: string, b: string, n: nat)
    requires n < |a| && n < |b| && a[..n] == b[..n] && a[n] < b[n]
    ensures Before(a, b)
  {
    CommonIs(a, b, n);
  }

  lemma BeforeTrans(a: string, b: string, c: string)
    requires Before(a, b) && Before(b, c)
    ensures Before(a, c)
  {
    CommonMeans(a, b);
    CommonMeans(b, c);
    var m, n := Common(a, b), Common(b, c);
    var k := if m < n then m else n;
    assert a[..k] == a[..m][..k] == b[..m][..k] == b[..k] == b[..n][..k] == c[..n][..k] == c[..k];
    if m < n { SameAt(b, c, n, m); }
    if n < m { SameAt(a, b, m, n); }
    BeforeAt(a, c, k);
  }

  lemma CommonBeginning(a: string, b: string, x: string)
    requires x <= b
    ensures |x| <= Common(a, b) ==> x <= a
  {
    CommonMeans(a, b);
    var n := Common(a, b);
    if |x| <= n { assert a[..|x|] == a[..n][..|x|] == b[..n][..|x|] == x; }
  }

  // Shortening a name to x keeps its place among those that x does not abbreviate.
  lemma ShortenedAfter(a: string, b: string, x: string)
    requires Before(a, b) && x <= b && !Compatible(x, a)
    ensures Before(a, x)
  {
    CommonBeginning(a, b, x);
    CommonMeans(a, b);
    var n := Common(a, b);
    assert a[..n] == b[..n] == x[..n];
    BeforeAt(a, x, n);
  }

  lemma ShortenedBefore(a: string, b: string, x: string)
    requires Before(b, a) && x <= b && !Compatible(x, a)
    ensures Before(x, a)
  {
    CompareCases(b, a);
    CommonSymmetric(a, b);
    CommonBeginning(a, b, x);
    CommonMeans(b, a);
    var n := Common(b, a);
    assert a[..n] == b[..n] == x[..n];
    BeforeAt(x, a, n);
  }

  lemma CommonSymmetric(a: string, b: string)
    ensures Common(a, b) == Common(b, a)
  {
    CommonMeans(a, b);
    CommonIs(b, a, Common(a, b));
  }
}
