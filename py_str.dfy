/**
 * The pieces of Python's built-in string and list behaviour the model
 * needs. The record builder uses `str.split()` without arguments (`Split`)
 * and list indexing with negative indices (`At`); the highlight squares use
 * slicing with clamped bounds (`Slice`). `Join` (`sep.join`) is not used by
 * the bot: it only serves to state what `Split` gives back.
 */
module PyStr {
  import opened Wrappers

  /** The characters Python's `str.isspace` accepts, i.e. the separators of
      an argument-less `str.split()`. */
  predicate IsSpace(c: char) {
    ('\t' <= c <= '\r') ||
    ('\U{1C}' <= c <= '\U{1F}') ||
    c == ' ' || c == '\U{85}' || c == '\U{A0}' || c == '\U{1680}' ||
    ('\U{2000}' <= c <= '\U{200A}') ||
    c == '\U{2028}' || c == '\U{2029}' || c == '\U{202F}' || c == '\U{205F}' ||
    c == '\U{3000}'
  }

  /** A token `str.split()` can produce: non-empty and free of whitespace. */
  predicate IsWord(w: string) {
    |w| > 0 && forall i :: 0 <= i < |w| ==> !IsSpace(w[i])
  }

  predicate AllSpace(s: string) {
    forall i :: 0 <= i < |s| ==> IsSpace(s[i])
  }

  /** The characters of `s` that are not whitespace, in order. */
  function NonSpace(s: string): string {
    if |s| == 0 then ""
    else if IsSpace(s[0]) then NonSpace(s[1..])
    else [s[0]] + NonSpace(s[1..])
  }

  /** The concatenation of a sequence of strings (`"".join(words)`). */
  function Concat(words: seq<string>): string {
    if |words| == 0 then "" else words[0] + Concat(words[1..])
  }

  /** `sep.join(words)`. */
  function Join(words: seq<string>, sep: string): string {
    if |words| == 0 then ""
    else if |words| == 1 then words[0]
    else words[0] + sep + Join(words[1..], sep)
  }

  /** Length of the run of non-whitespace characters that starts `s`. */
  function WordLen(s: string): (n: nat)
    ensures n <= |s|
    ensures forall i :: 0 <= i < n ==> !IsSpace(s[i])
    ensures n < |s| ==> IsSpace(s[n])
  {
    if |s| == 0 || IsSpace(s[0]) then 0 else 1 + WordLen(s[1..])
  }

  /** Length of the run of whitespace characters that starts `s`. */
  function LeadingSpace(s: string): (n: nat)
    ensures n <= |s|
    ensures forall i :: 0 <= i < n ==> IsSpace(s[i])
    ensures n < |s| ==> !IsSpace(s[n])
  {
    if |s| == 0 || !IsSpace(s[0]) then 0 else 1 + LeadingSpace(s[1..])
  }

  lemma {:induction false} NonSpaceAppend(a: string, b: string)
    ensures NonSpace(a + b) == NonSpace(a) + NonSpace(b)
    decreases |a|
  {
    if |a| == 0 {
      assert a + b == b;
    } else {
      assert (a + b)[0] == a[0];
      assert (a + b)[1..] == a[1..] + b;
      NonSpaceAppend(a[1..], b);
    }
  }

  lemma {:induction false} NonSpaceOfWord(w: string)
    requires forall i :: 0 <= i < |w| ==> !IsSpace(w[i])
    ensures NonSpace(w) == w
    decreases |w|
  {
    if |w| > 0 {
      NonSpaceOfWord(w[1..]);
      assert w == [w[0]] + w[1..];
    }
  }

  /** Python's `s.split()`: the maximal runs of non-whitespace characters,
      in order. Every token is a word, and together the tokens hold exactly
      the non-whitespace characters of `s`. */
  function Split(s: string): (words: seq<string>)
    ensures forall k :: 0 <= k < |words| ==> IsWord(words[k])
    ensures Concat(words) == NonSpace(s)
    decreases |s|
  {
    if |s| == 0 then []
    else if IsSpace(s[0]) then Split(s[1..])
    else
      var n := WordLen(s);
      assert s == s[..n] + s[n..];
      NonSpaceAppend(s[..n], s[n..]);
      NonSpaceOfWord(s[..n]);
      var rest := Split(s[n..]);
      assert ([s[..n]] + rest)[1..] == rest;
      [s[..n]] + rest
  }

  /** `s.split()` is empty exactly when `s` is all whitespace. */
  lemma {:induction false} SplitEmptyIff(s: string)
    ensures Split(s) == [] <==> AllSpace(s)
    decreases |s|
  {
    if |s| > 0 {
      if IsSpace(s[0]) {
        SplitEmptyIff(s[1..]);
        if AllSpace(s[1..]) {
          forall i | 0 <= i < |s| ensures IsSpace(s[i]) {
            if i > 0 { assert s[i] == s[1..][i - 1]; }
          }
        }
      }
    }
  }

  /** Leading whitespace is skipped. */
  lemma {:induction false} SplitSkipsSpace(w: string, s: string)
    requires AllSpace(w)
    ensures Split(w + s) == Split(s)
    decreases |w|
  {
    if |w| == 0 {
      assert w + s == s;
    } else {
      assert (w + s)[0] == w[0];
      assert (w + s)[1..] == w[1..] + s;
      SplitSkipsSpace(w[1..], s);
    }
  }

  /** The first token of `s.split()` is the run of non-whitespace characters
      that follows the leading whitespace of `s`, and it ends at whitespace or
      at the end of `s`. */
  lemma {:induction false} FirstWord(s: string)
    requires Split(s) != []
    ensures LeadingSpace(s) + |Split(s)[0]| <= |s|
    ensures Split(s)[0] == s[LeadingSpace(s)..LeadingSpace(s) + |Split(s)[0]|]
    ensures LeadingSpace(s) + |Split(s)[0]| == |s| || IsSpace(s[LeadingSpace(s) + |Split(s)[0]|])
    decreases |s|
  {
    if IsSpace(s[0]) {
      FirstWord(s[1..]);
    }
  }

  /** `str.split()` undoes a join of words with a whitespace separator. */
  lemma {:induction false} SplitJoin(words: seq<string>, sep: string)
    requires forall k :: 0 <= k < |words| ==> IsWord(words[k])
    requires |sep| > 0 && AllSpace(sep)
    ensures Split(Join(words, sep)) == words
    decreases |words|
  {
    if |words| == 1 {
      SplitOfWord(words[0], "");
      assert words[0] + "" == words[0];
    } else if |words| > 1 {
      var w, rest := words[0], Join(words[1..], sep);
      assert words[0] + sep + rest == w + (sep + rest);
      SplitOfWord(w, sep + rest);
      SplitSkipsSpace(sep, rest);
      SplitJoin(words[1..], sep);
      assert words == [w] + words[1..];
    }
  }

  /** A word followed by nothing or by whitespace is split off whole. */
  lemma SplitOfWord(w: string, s: string)
    requires IsWord(w)
    requires |s| == 0 || IsSpace(s[0])
    ensures Split(w + s) == [w] + Split(s)
  {
    var t := w + s;
    var n := WordLen(t);
    assert forall i :: 0 <= i < |w| ==> t[i] == w[i];
    assert |s| > 0 ==> t[|w|] == s[0];
    assert n == |w|;
    assert t[..n] == w;
    assert t[n..] == s;
  }

  /** Python's `xs[i]` on a list: negative indices count from the end, and an
      index outside `-len(xs) <= i < len(xs)` raises IndexError (`None`). */
  function At<T>(xs: seq<T>, i: int): (r: Option<T>)
    ensures r.Some? <==> -|xs| <= i < |xs|
    ensures 0 <= i < |xs| ==> r == Some(xs[i])
    ensures -|xs| <= i < 0 ==> r == Some(xs[|xs| + i])
  {
    if 0 <= i < |xs| then Some(xs[i])
    else if -|xs| <= i < 0 then Some(xs[|xs| + i])
    else None
  }

  /** Python's `s[i:j]` for non-negative bounds: both bounds are clamped to
      the length, and an empty string comes back when `j <= i`. */
  function Slice(s: string, i: nat, j: nat): (r: string)
    ensures |r| == if j <= i || i >= |s| then 0 else (if j <= |s| then j else |s|) - i
    ensures forall k :: 0 <= k < |r| ==> r[k] == s[i + k]
  {
    var lo := if i <= |s| then i else |s|;
    var hi := if j <= |s| then j else |s|;
    if hi <= lo then "" else s[lo..hi]
  }
}
