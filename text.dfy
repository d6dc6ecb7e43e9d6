/** String operations of Python that the recommender relies on, on `seq<char>`. */
module Text {
  import opened Numbers

  /** `p` is a prefix of `s`. */
  predicate IsPrefix(p: string, s: string) {
    |p| <= |s| && s[..|p|] == p
  }

  /** Python's `p in s` for strings: `p` occurs as a contiguous block of `s`.
      The empty string occurs in every string. */
  predicate Contains(p: string, s: string)
    decreases |s|
  {
    IsPrefix(p, s) || (s != [] && Contains(p, s[1..]))
  }

  /** `p` occurs at position `i` of `s`. */
  predicate OccursAt(p: string, s: string, i: int) {
    0 <= i && i + |p| <= |s| && s[i..i + |p|] == p
  }

  /** An occurrence at a known position witnesses containment. */
  lemma {:induction false} ContainsAt(p: string, s: string, i: nat)
    requires OccursAt(p, s, i)
    ensures Contains(p, s)
    decreases i
  {
    if i > 0 {
      assert s[1..][i - 1..i - 1 + |p|] == s[i..i + |p|];
      ContainsAt(p, s[1..], i - 1);
    } else {
      assert IsPrefix(p, s);
    }
  }

  /** A contained pattern occurs at some position. */
  lemma {:induction false} OccurrenceOf(p: string, s: string) returns (i: nat)
    requires Contains(p, s)
    ensures OccursAt(p, s, i)
    decreases |s|
  {
    if IsPrefix(p, s) {
      i := 0;
    } else {
      var k := OccurrenceOf(p, s[1..]);
      assert s[1..][k..k + |p|] == s[k + 1..k + 1 + |p|];
      i := k + 1;
    }
  }

  /** Contains is exactly "occurs at some position". */
  lemma ContainsIff(p: string, s: string)
    ensures Contains(p, s) <==> exists i :: OccursAt(p, s, i)
  {
    if Contains(p, s) {
      var i := OccurrenceOf(p, s);
    }
    if exists i :: OccursAt(p, s, i) {
      var i :| OccursAt(p, s, i);
      ContainsAt(p, s, i);
    }
  }

  /** Every character of a pattern that occurs in `s` is a character of `s`; so a pattern
      with a character `s` lacks does not occur in `s`. */
  lemma {:induction false} ContainsChars(p: string, s: string)
    requires Contains(p, s)
    ensures forall j :: 0 <= j < |p| ==> p[j] in s
  {
    var i := OccurrenceOf(p, s);
    forall j | 0 <= j < |p| ensures p[j] in s {
      assert s[i..i + |p|][j] == s[i + j];
    }
  }

  /** A pattern with a character that `s` lacks does not occur in `s`. */
  lemma AbsentByChar(p: string, s: string, j: nat)
    requires j < |p| && p[j] !in s
    ensures !Contains(p, s)
  {
    if Contains(p, s) {
      ContainsChars(p, s);
    }
  }

  /** Python's `s[:n]`: at most the first `n` characters. */
  function Take(s: string, n: nat): (r: string)
    ensures |r| == Min(|s|, n) && IsPrefix(r, s)
  {
    if |s| <= n then s else s[..n]
  }

  /** Python's `s.split(sep)[0]`: the text before the first `sep`, or all of `s`. */
  function FirstToken(s: string, sep: char): (r: string)
    ensures IsPrefix(r, s)
    ensures sep !in r
    ensures |r| < |s| ==> s[|r|] == sep
  {
    if s == [] then []
    else if s[0] == sep then []
    else [s[0]] + FirstToken(s[1..], sep)
  }

  /** The first token ends at the first separator. */
  lemma {:induction false} FirstTokenAt(s: string, sep: char, k: nat)
    requires k <= |s| && sep !in s[..k] && (k < |s| ==> s[k] == sep)
    ensures FirstToken(s, sep) == s[..k]
  {
    if k > 0 {
      assert s[0] in s[..k];
      assert s[1..][..k - 1] == s[1..k];
      FirstTokenAt(s[1..], sep, k - 1);
      assert s[..k] == [s[0]] + s[1..k];
    }
  }

  /** Python's `s.replace(p, "")`: every leftmost non-overlapping occurrence of `p` removed;
      an empty pattern leaves `s` unchanged. */
  function RemoveAll(s: string, p: string): (r: string)
    ensures |r| <= |s|
    decreases |s|
  {
    if p == [] || |s| < |p| then s
    else if s[..|p|] == p then RemoveAll(s[|p|..], p)
    else [s[0]] + RemoveAll(s[1..], p)
  }

  /** A leading occurrence is removed and the rest is processed. */
  lemma RemoveAllPrefix(s: string, p: string)
    requires p != [] && IsPrefix(p, s)
    ensures RemoveAll(s, p) == RemoveAll(s[|p|..], p)
  {
  }

  /** Removing a pattern that does not occur changes nothing. */
  lemma {:induction false} RemoveAllAbsent(s: string, p: string)
    requires !Contains(p, s)
    ensures RemoveAll(s, p) == s
    decreases |s|
  {
    if p != [] && |s| >= |p| {
      assert !IsPrefix(p, s);
      RemoveAllAbsent(s[1..], p);
      assert [s[0]] + s[1..] == s;
    }
  }

  /** The characters Python's `str.isspace` accepts, which `str.strip()` removes. */
  predicate IsSpace(c: char) {
    ('\t' <= c <= '\r') || ('\U{1c}' <= c <= ' ') || c == '\U{85}' || c == '\U{a0}'
    || c == '\U{1680}' || ('\U{2000}' <= c <= '\U{200a}') || c == '\U{2028}' || c == '\U{2029}'
    || c == '\U{202f}' || c == '\U{205f}' || c == '\U{3000}'
  }

  /** `s.strip()` is the empty string, i.e. `s` is made of whitespace only. */
  predicate IsBlank(s: string) {
    forall i :: 0 <= i < |s| ==> IsSpace(s[i])
  }

  /** Python's `sep.join(parts)`. */
  function Join(parts: seq<string>, sep: string): (r: string)
    ensures parts != [] && parts[0] != [] ==> r != []
    ensures parts != [] ==> IsPrefix(parts[0], r)
  {
    if parts == [] then []
    else if |parts| == 1 then parts[0]
    else parts[0] + sep + Join(parts[1..], sep)
  }
}
