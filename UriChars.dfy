/**
  Character classes of RFC 3986 (section 2.2, reserved characters; section 2.3,
  unreserved characters; section 2.1, percent-encoded triplets) and the runs of
  them that a URI Template variable captures under RFC 6570: simple string
  expansion (section 3.2.2) captures unreserved characters only, reserved
  expansion (section 3.2.3) also admits the reserved ones.
 */
module UriChars {
  import opened Wrappers

  predicate IsAlpha(c: char) {
    ('a' <= c <= 'z') || ('A' <= c <= 'Z')
  }

  predicate IsDigit(c: char) {
    '0' <= c <= '9'
  }

  predicate IsHexDigit(c: char) {
    IsDigit(c) || ('a' <= c <= 'f') || ('A' <= c <= 'F')
  }

  /** ALPHA / DIGIT / "-" / "." / "_" / "~" */
  predicate IsUnreserved(c: char) {
    IsAlpha(c) || IsDigit(c) || c == '-' || c == '.' || c == '_' || c == '~'
  }

  /** gen-delims / sub-delims */
  predicate IsReserved(c: char) {
    c in ":/?#[]@" || c in "!$&'()*+,;="
  }

  /** The two expansion operators the link templates use: `{var}` and `{+var}`. */
  datatype Expansion = Simple | Reserved

  predicate Admits(op: Expansion, c: char) {
    IsUnreserved(c) || (op == Reserved && IsReserved(c))
  }

  /**
    A run of admitted characters and percent-encoded triplets: what one
    variable of the given expansion may capture. A '%' is never admitted on
    its own, only as the start of a triplet.
   */
  predicate IsRun(op: Expansion, s: string)
    decreases |s|
  {
    if s == [] then true
    else if s[0] == '%' then |s| >= 3 && IsHexDigit(s[1]) && IsHexDigit(s[2]) && IsRun(op, s[3..])
    else Admits(op, s[0]) && IsRun(op, s[1..])
  }

  /** A character that is neither unreserved nor '%' never occurs in a simple run; '/' and '?' are such. */
  lemma {:induction false} SimpleRunExcludes(s: string, c: char)
    requires !IsUnreserved(c) && c != '%'
    ensures IsRun(Simple, s) ==> c !in s
    decreases |s|
  {
    if s != [] {
      if s[0] == '%' {
        if |s| >= 3 {
          SimpleRunExcludes(s[3..], c);
          assert s == s[..3] + s[3..];
        }
      } else {
        SimpleRunExcludes(s[1..], c);
        assert s == [s[0]] + s[1..];
      }
    }
  }

  /** A string of admitted characters only, without any triplet, is a run. */
  lemma {:induction false} AdmittedCharsFormRun(op: Expansion, s: string)
    requires forall k :: 0 <= k < |s| ==> Admits(op, s[k])
    ensures IsRun(op, s)
    decreases |s|
  {
    if s != [] {
      AdmittedCharsFormRun(op, s[1..]);
    }
  }

  /** A string that opens with a character its expansion does not admit is no run. */
  lemma NoRunOpeningWith(op: Expansion, s: string)
    requires s != [] && s[0] != '%' && !Admits(op, s[0])
    ensures !IsRun(op, s)
  {
  }

  /** Index of the first occurrence of `c` in `s`, or `|s|` when there is none. */
  function IndexOf(s: string, c: char): (i: nat)
    ensures i <= |s|
    ensures i < |s| ==> s[i] == c
    ensures forall k :: 0 <= k < i ==> s[k] != c
  {
    if s == [] then 0
    else if s[0] == c then 0
    else 1 + IndexOf(s[1..], c)
  }

  lemma {:induction false} IndexOfAfter(a: string, c: char, b: string)
    requires c !in a
    ensures IndexOf(a + [c] + b, c) == |a|
    decreases |a|
  {
    if a != [] {
      assert (a + [c] + b)[1..] == a[1..] + [c] + b;
      IndexOfAfter(a[1..], c, b);
    }
  }

  /** Splits `s` around the first occurrence of `c`; `None` when `c` does not occur. */
  function SplitAtFirst(s: string, c: char): (r: Option<(string, string)>)
    ensures r.None? <==> c !in s
    ensures r.Some? ==> c !in r.value.0 && s == r.value.0 + ([c] + r.value.1)
  {
    var i := IndexOf(s, c);
    if i == |s| then
      None
    else
      assert s == s[..i] + ([c] + s[i + 1..]);
      Some((s[..i], s[i + 1..]))
  }

  lemma SplitAtFirstOf(a: string, c: char, b: string)
    requires c !in a
    ensures SplitAtFirst(a + ([c] + b), c) == Some((a, b))
  {
    IndexOfAfter(a, c, b);
    assert a + ([c] + b) == a + [c] + b;
    assert (a + [c] + b)[..|a|] == a;
    assert (a + [c] + b)[|a| + 1..] == b;
  }

  predicate StartsWith(s: string, prefix: string) {
    |prefix| <= |s| && s[..|prefix|] == prefix
  }

  /** Splitting after a stretch free of `c` keeps that stretch in the first part. */
  lemma SplitAtFirstKeepsPrefix(a: string, b: string, c: char)
    requires c !in a
    ensures SplitAtFirst(a + b, c).Some? ==> a <= SplitAtFirst(a + b, c).value.0
  {
    var s := a + b;
    var i := IndexOf(s, c);
    assert forall k :: 0 <= k < |a| ==> s[k] == a[k];
    assert i >= |a|;
    assert s[..i][..|a|] == a;
  }

  /** The rest of `s` after `prefix`; `None` when `s` does not start with `prefix`. */
  function StripPrefix(s: string, prefix: string): (r: Option<string>)
    ensures r.None? <==> !StartsWith(s, prefix)
    ensures r.Some? ==> s == prefix + r.value
  {
    if StartsWith(s, prefix) then
      assert s == s[..|prefix|] + s[|prefix|..];
      Some(s[|prefix|..])
    else
      None
  }

  lemma StripPrefixOf(prefix: string, rest: string)
    ensures StripPrefix(prefix + rest, prefix) == Some(rest)
  {
    assert (prefix + rest)[..|prefix|] == prefix;
    assert (prefix + rest)[|prefix|..] == rest;
  }

  predicate EndsWithSlash(s: string) {
    |s| > 0 && s[|s| - 1] == '/'
  }

  /** Ruby's `\w`: an ASCII word character. */
  predicate IsWordChar(c: char) {
    IsAlpha(c) || IsDigit(c) || c == '_'
  }

  /**
    The match of Ruby's regular expression `\w*` against `s`: the longest leading run of word
    characters, empty when `s` is empty or starts with a non-word character.
   */
  function WordPrefix(s: string): (w: string)
    ensures w <= s
    ensures forall k :: 0 <= k < |w| ==> IsWordChar(w[k])
    ensures |w| < |s| ==> !IsWordChar(s[|w|])
  {
    if s != [] && IsWordChar(s[0]) then [s[0]] + WordPrefix(s[1..]) else []
  }

  /** A run of word characters never ends with '/'. */
  lemma WordRunEndsWithoutSlash(w: string)
    requires forall k :: 0 <= k < |w| ==> IsWordChar(w[k])
    ensures !EndsWithSlash(w)
  {
    if w != [] {
      assert IsWordChar(w[|w| - 1]);
    }
  }

  /** A leading run of word characters is always kept whole. */
  lemma {:induction false} WordPrefixKeepsWordRun(a: string, b: string)
    requires forall k :: 0 <= k < |a| ==> IsWordChar(a[k])
    ensures WordPrefix(a + b) == a + WordPrefix(b)
    decreases |a|
  {
    if a != [] {
      var s := a + b;
      assert s[0] == a[0] && IsWordChar(s[0]);
      assert s[1..] == a[1..] + b;
      WordPrefixKeepsWordRun(a[1..], b);
      assert WordPrefix(s) == [s[0]] + WordPrefix(s[1..]);
      assert a == [a[0]] + a[1..];
      assert [a[0]] + (a[1..] + WordPrefix(b)) == a + WordPrefix(b);
    } else {
      assert a + b == b;
    }
  }

}
