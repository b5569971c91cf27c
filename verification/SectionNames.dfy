// Section names: a search tree whose keys are the shortest abbreviations used so far, and
// the names themselves, put together piece by piece.
module SectionNames {
  import opened Wrappers
  import opened Strings

  // ---------- one name, in chunks ----------

  // A chunk that ends in a space is to be continued.
  predicate Open(chunk: string) { chunk != "" && chunk[|chunk| - 1] == ' ' }

  function Body(chunk: string): string { if Open(chunk) then chunk[..|chunk| - 1] else chunk }

  // All chunks but the last are to be continued; an empty one can only close the name.
  predicate WellChunked(chunks: seq<string>) { chunks != [] && WellChunkedFrom(chunks, 0) }

  predicate WellChunkedFrom(chunks: seq<string>, k: nat)
    requires k < |chunks|
    decreases |chunks| - k
  {
    && (k > 0 && Body(chunks[k]) == "" ==> chunks[k] == "")
    && (k + 1 < |chunks| ==> Open(chunks[k]) && WellChunkedFrom(chunks, k + 1))
  }

  function Text(chunks: seq<string>): string { TextFrom(chunks, 0) }

  function TextFrom(chunks: seq<string>, k: nat): string
    requires k <= |chunks|
    decreases |chunks| - k
  {
    if k == |chunks| then "" else Body(chunks[k]) + TextFrom(chunks, k + 1)
  }

  predicate Complete(chunks: seq<string>)
    requires chunks != []
  {
    !Open(chunks[|chunks| - 1])
  }

  // x against a whole name: what it says more than the name, if it extends it, may only be
  // added while the name is incomplete.
  function Against(x: string, text: string, complete: bool): Verdict {
    match Compare(x, text)
    case Equal => if complete then Equal else Extension
    case Extension => if complete then BadExtension else Extension
    case c => c
  }

  lemma {:induction false} CompareAfter(p: string, a: string, b: string)
    ensures Compare(p + a, p + b) == Compare(a, b)
  {
    CommonMeans(a, b);
    var n := Common(a, b);
    assert (p + a)[..|p| + n] == p + a[..n] == p + b[..n] == (p + b)[..|p| + n];
    CommonIs(p + a, p + b, |p| + n);
  }

  lemma ChunkDiffers(s: string, body: string, more: string)
    requires Compare(s, body) == Less || Compare(s, body) == Greater
    ensures Compare(s, body + more) == Compare(s, body)
  {
    CommonMeans(s, body);
    var n := Common(s, body);
    assert body[..n] == (body + more)[..n];
    CommonIs(s, body + more, n);
  }

  lemma ChunkLonger(s: string, body: string, more: string)
    requires Compare(s, body) == Prefix || (Compare(s, body) == Equal && more != "")
    ensures Compare(s, body + more) == Prefix
  {
    CompareCases(s, body);
    CompareCases(s, body + more);
  }

  lemma ChunkShorter(s: string, body: string, more: string)
    requires Compare(s, body) == Extension
    ensures Compare(s, body + more) == Compare(s[|body|..], more)
  {
    CompareCases(s, body);
    assert s == body + s[|body|..];
    CompareAfter(body, s[|body|..], more);
  }

  function AgainstFrom(x: string, chunks: seq<string>, k: nat): Verdict
    requires k <= |chunks| && chunks != []
  {
    Against(x, TextFrom(chunks, k), Complete(chunks))
  }

  // What one chunk tells of the comparison with the rest of the name, s being all that is
  // still to be compared.
  lemma AtEqual(s: string, chunks: seq<string>, k: nat)
    requires k < |chunks| && WellChunkedFrom(chunks, k) && Compare(s, Body(chunks[k])) == Equal
    ensures AgainstFrom(s, chunks, k)
         == if k + 1 == |chunks| then (if Open(chunks[k]) then Extension else Equal)
            else if chunks[k + 1] == "" then Equal else Prefix
    ensures s == Body(chunks[k])
  {
    CompareCases(s, Body(chunks[k]));
    assert k + 1 == |chunks| ==> TextFrom(chunks, k) == Body(chunks[k]) + "" == s;
    if k + 1 < |chunks| {
      if chunks[k + 1] == "" {
        LastIsEmpty(chunks, k + 1);
        assert Body(chunks[k]) + "" == Body(chunks[k]);
      } else { ChunkLonger(s, Body(chunks[k]), TextFrom(chunks, k + 1)); }
    }
  }

  lemma AtExtension(s: string, chunks: seq<string>, k: nat)
    requires k < |chunks| && WellChunkedFrom(chunks, k) && Compare(s, Body(chunks[k])) == Extension
    ensures s == Body(chunks[k]) + s[|Body(chunks[k])|..] && s[|Body(chunks[k])|..] != ""
    ensures !Open(chunks[k]) ==> AgainstFrom(s, chunks, k) == BadExtension
    ensures Open(chunks[k]) ==> AgainstFrom(s, chunks, k) == AgainstFrom(s[|Body(chunks[k])|..], chunks, k + 1)
    ensures Open(chunks[k]) && k + 1 == |chunks| ==> AgainstFrom(s, chunks, k) == Extension
  {
    CompareCases(s, Body(chunks[k]));
    ChunkShorter(s, Body(chunks[k]), TextFrom(chunks, k + 1));
    CompareCases(s[|Body(chunks[k])|..], "");
  }

  lemma AtOther(s: string, chunks: seq<string>, k: nat)
    requires k < |chunks| && WellChunkedFrom(chunks, k)
    requires var c := Compare(s, Body(chunks[k])); c == Less || c == Greater || c == Prefix
    ensures AgainstFrom(s, chunks, k) == Compare(s, Body(chunks[k]))
  {
    if Compare(s, Body(chunks[k])) == Prefix { ChunkLonger(s, Body(chunks[k]), TextFrom(chunks, k + 1)); }
    else { ChunkDiffers(s, Body(chunks[k]), TextFrom(chunks, k + 1)); }
  }

  lemma ExtensionMeans(x: string, text: string, complete: bool)
    ensures Against(x, text, complete) == Extension ==> text <= x
  {
    CompareCases(x, text);
  }

  // section_name_cmp: chunk by chunk, the verdict is that of comparing with the whole name;
  // for an extension, first is where what x adds to it begins.
  method SectionNameCmp(x: string, chunks: seq<string>) returns (c: Verdict, first: nat)
    requires WellChunked(chunks)
    ensures c == Against(x, Text(chunks), Complete(chunks))
    ensures c == Extension ==> Text(chunks) <= x && first == |Text(chunks)|
  {
    ghost var verdict := Against(x, Text(chunks), Complete(chunks));
    ExtensionMeans(x, Text(chunks), Complete(chunks));
    var k, s := 0, x;
    first := 0;
    while true
      invariant k < |chunks| && WellChunkedFrom(chunks, k)
      invariant first + |TextFrom(chunks, k)| == |TextFrom(chunks, 0)|
      invariant AgainstFrom(s, chunks, k) == verdict
      decreases |chunks| - k
    {
      var body := Body(chunks[k]);
      c := WebStrcmp(s, body);
      if c == Equal {
        AtEqual(s, chunks, k);
        if k + 1 == |chunks| {
          if Open(chunks[k]) { return Extension, first + |body|; }
          return;
        }
        c := if chunks[k + 1] == "" then Equal else Prefix;
        return;
      } else if c == Extension {
        AtExtension(s, chunks, k);
        if !Open(chunks[k]) { c := BadExtension; return; }
        first := first + |body|;
        if k + 1 == |chunks| { return; }
        s := s[|body|..];
        k := k + 1;
      } else {
        AtOther(s, chunks, k);
        return;
      }
    }
  }

  lemma LastIsEmpty(chunks: seq<string>, k: nat)
    requires k < |chunks| && WellChunkedFrom(chunks, k) && chunks[k] == ""
    ensures k == |chunks| - 1 && Complete(chunks) && TextFrom(chunks, k) == ""
  {
  }

  // sprint_section_name: the chunks one after the other make up the text.
  method SprintSectionName(chunks: seq<string>) returns (dest: string)
    requires WellChunked(chunks)
    ensures dest == Text(chunks)
  {
    dest := "";
    var k := 0;
    while k < |chunks|
      invariant k <= |chunks| && Text(chunks) == dest + TextFrom(chunks, k)
    {
      Associative(dest, Body(chunks[k]), TextFrom(chunks, k + 1));
      dest := dest + Body(chunks[k]);
      k := k + 1;
    }
  }

  // The bytes of a chunk that says s and is, or is not, to be continued.
  function Chunk(s: string, ispref: bool): string { if ispref then s + " " else s }

  predicate EndsWell(s: string) { s == "" || s[|s| - 1] != ' ' }

  lemma {:induction false} TextAppend(chunks: seq<string>, c: string, k: nat)
    requires k <= |chunks|
    ensures TextFrom(chunks + [c], k) == TextFrom(chunks, k) + Body(c)
    decreases |chunks| - k
  {
    if k < |chunks| {
      TextAppend(chunks, c, k + 1);
      Associative(Body(chunks[k]), TextFrom(chunks, k + 1), Body(c));
    }
  }

  lemma {:induction false} ChunkedAppend(chunks: seq<string>, c: string, k: nat)
    requires k < |chunks| && WellChunkedFrom(chunks, k) && Open(chunks[|chunks| - 1])
    requires Body(c) == "" ==> c == ""
    ensures WellChunkedFrom(chunks + [c], k)
    decreases |chunks| - k
  {
    if k + 1 < |chunks| { ChunkedAppend(chunks, c, k + 1); }
  }

  // extend_section_name adds to the end of an incomplete name and keeps it well formed.
  lemma Extended(chunks: seq<string>, s: string, ispref: bool)
    requires WellChunked(chunks) && !Complete(chunks) && (ispref || EndsWell(s)) && (ispref ==> s != "")
    ensures var more := chunks + [Chunk(s, ispref)];
            WellChunked(more) && Text(more) == Text(chunks) + s && Complete(more) == !ispref
  {
    TextAppend(chunks, Chunk(s, ispref), 0);
    ChunkedAppend(chunks, Chunk(s, ispref), 0);
  }
}
