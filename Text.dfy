/**
 * The few pieces of Python's `str` that the client relies on: `strip()`,
 * `lower()`, `endswith()` and the substring test `needle in hay`.
 */
module Text {

  /** Python's `str.isspace()` for a single character. */
  predicate IsSpace(c: char)
  {
    || c == ' '
    || '\t' <= c <= '\r'
    || '\U{1c}' <= c <= '\U{1f}'
    || c == '\U{85}' || c == '\U{a0}' || c == '\U{1680}'
    || '\U{2000}' <= c <= '\U{200a}'
    || c == '\U{2028}' || c == '\U{2029}' || c == '\U{202f}' || c == '\U{205f}' || c == '\U{3000}'
  }

  predicate AllSpace(s: string)
  {
    forall i :: 0 <= i < |s| ==> IsSpace(s[i])
  }

  /** `s.lstrip()`: the longest suffix of `s` that does not start with white space. */
  function TrimStart(s: string): (r: string)
    ensures |r| <= |s| && r == s[|s| - |r|..]
    ensures AllSpace(s[..|s| - |r|])
    ensures r == [] || !IsSpace(r[0])
  {
    if s != [] && IsSpace(s[0]) then
      var r := TrimStart(s[1..]);
      assert s[..|s| - |r|] == [s[0]] + s[1..][..|s| - 1 - |r|];
      r
    else s
  }

  /** `s.rstrip()`: the longest prefix of `s` that does not end with white space. */
  function TrimEnd(s: string): (r: string)
    ensures |r| <= |s| && r == s[..|r|]
    ensures AllSpace(s[|r|..])
    ensures r == [] || !IsSpace(r[|r| - 1])
  {
    if s != [] && IsSpace(s[|s| - 1]) then
      var r := TrimEnd(s[..|s| - 1]);
      assert s[|r|..] == s[..|s| - 1][|r|..] + [s[|s| - 1]];
      r
    else s
  }

  /** `s.strip()`. */
  function Strip(s: string): string
  {
    TrimEnd(TrimStart(s))
  }

  /**
   * What `strip()` removes: white space only, from both ends, leaving a
   * contiguous slice of the input.
   */
  lemma StripSlice(s: string) returns (a: nat, b: nat)
    ensures a <= b <= |s| && Strip(s) == s[a..b]
    ensures AllSpace(s[..a]) && AllSpace(s[b..])
  {
    var t := TrimStart(s);
    var r := TrimEnd(t);
    a := |s| - |t|;
    b := a + |r|;
    assert t == s[a..];
    assert r == s[a..b];
    assert s[b..] == t[|r|..];
  }

  /** What `strip()` keeps neither starts nor ends with white space. */
  lemma StripBorders(s: string)
    ensures Strip(s) == [] || (!IsSpace(Strip(s)[0]) && !IsSpace(Strip(s)[|Strip(s)| - 1]))
  {
    var t := TrimStart(s);
    var r := TrimEnd(t);
    if r != [] {
      assert r[0] == t[0];
    }
  }

  /** Stripping is idempotent. */
  lemma StripIdempotent(s: string)
    ensures Strip(Strip(s)) == Strip(s)
  {
    var r := Strip(s);
    StripBorders(s);
    TrimStartKeeps(r);
    TrimEndKeeps(r);
  }

  lemma TrimStartKeeps(s: string)
    requires s == [] || !IsSpace(s[0])
    ensures TrimStart(s) == s
  {
  }

  lemma TrimEndKeeps(s: string)
    requires s == [] || !IsSpace(s[|s| - 1])
    ensures TrimEnd(s) == s
  {
  }

  /** `s.strip()` is empty exactly when `s` consists of white space only. */
  lemma StripEmptyIffBlank(s: string)
    ensures Strip(s) == [] <==> AllSpace(s)
  {
    var a, b := StripSlice(s);
    StripBorders(s);
    if Strip(s) == [] {
      assert a == b;
      forall i | 0 <= i < |s| ensures IsSpace(s[i]) {
        if i < a { assert s[..a][i] == s[i]; } else { assert s[b..][i - b] == s[i]; }
      }
    } else {
      assert s[a..b][0] == s[a];
      assert !IsSpace(s[a]);
    }
  }

  /** Python's `str.lower()` on the characters the client can meet: ASCII and Latin-1 capitals. */
  function LowerChar(c: char): char
  {
    if 'A' <= c <= 'Z' || ('\U{c0}' <= c <= '\U{de}' && c != '\U{d7}') then (c as int + 32) as char else c
  }

  function Lower(s: string): string
  {
    seq(|s|, i requires 0 <= i < |s| => LowerChar(s[i]))
  }

  /** Lower-casing twice is lower-casing once. */
  lemma LowerIdempotent(s: string)
    ensures Lower(Lower(s)) == Lower(s)
  {
  }

  /** Lower-casing works character by character, so it distributes over concatenation. */
  lemma LowerConcat(a: string, b: string)
    ensures Lower(a + b) == Lower(a) + Lower(b)
  {
  }

  /** `s.endswith(suffix)`. */
  predicate EndsWith(s: string, suffix: string)
  {
    |suffix| <= |s| && s[|s| - |suffix|..] == suffix
  }

  /** `needle` occurs in `hay` starting at index `i`. */
  predicate OccursAt(hay: string, needle: string, i: int)
  {
    0 <= i && i + |needle| <= |hay| && hay[i..i + |needle|] == needle
  }

  /** Python's `needle in hay` for strings, as a statement. */
  ghost predicate Occurs(needle: string, hay: string)
  {
    exists i :: OccursAt(hay, needle, i)
  }

  /** Compares `needle[j..]` with `hay` from index `i + j` on. */
  function MatchesAt(hay: string, needle: string, i: nat, j: nat): bool
    decreases |needle| - j
  {
    j >= |needle| || (i + j < |hay| && hay[i + j] == needle[j] && MatchesAt(hay, needle, i, j + 1))
  }

  /** Looks for `needle` in `hay` at index `i` or later. */
  function ContainsFrom(hay: string, needle: string, i: nat): bool
    decreases |hay| + 1 - i
  {
    i + |needle| <= |hay| && (MatchesAt(hay, needle, i, 0) || ContainsFrom(hay, needle, i + 1))
  }

  /** `needle in hay`, computed by trying every start index from left to right. */
  function Contains(hay: string, needle: string): bool
  {
    ContainsFrom(hay, needle, 0)
  }

  lemma {:induction false} MatchesAtSpec(hay: string, needle: string, i: nat, j: nat)
    requires i + |needle| <= |hay| && j <= |needle|
    ensures MatchesAt(hay, needle, i, j) <==> hay[i + j..i + |needle|] == needle[j..]
    decreases |needle| - j
  {
    if j < |needle| {
      MatchesAtSpec(hay, needle, i, j + 1);
      assert hay[i + j..i + |needle|] == [hay[i + j]] + hay[i + j + 1..i + |needle|];
      assert needle[j..] == [needle[j]] + needle[j + 1..];
    }
  }

  lemma {:induction false} ContainsFromSpec(hay: string, needle: string, i: nat)
    ensures ContainsFrom(hay, needle, i) <==> exists k :: i <= k && OccursAt(hay, needle, k)
    decreases |hay| + 1 - i
  {
    if i + |needle| <= |hay| {
      ContainsFromSpec(hay, needle, i + 1);
      MatchesAtSpec(hay, needle, i, 0);
      assert needle[0..] == needle;
      assert MatchesAt(hay, needle, i, 0) <==> OccursAt(hay, needle, i);
    }
  }

  /** The computed test agrees with the statement: `needle in hay` holds iff `needle` occurs somewhere in `hay`. */
  lemma ContainsIffOccurs(hay: string, needle: string)
    ensures Contains(hay, needle) <==> Occurs(needle, hay)
  {
    ContainsFromSpec(hay, needle, 0);
  }

  /** A substring of a string is a substring of every string that contains it. */
  lemma ContainsExtend(a: string, b: string, needle: string)
    requires Contains(a, needle)
    ensures Contains(a + b, needle) && Contains(b + a, needle)
  {
    ContainsIffOccurs(a, needle);
    ContainsIffOccurs(a + b, needle);
    ContainsIffOccurs(b + a, needle);
    var k :| OccursAt(a, needle, k);
    assert (a + b)[k..k + |needle|] == a[k..k + |needle|];
    assert OccursAt(a + b, needle, k);
    assert (b + a)[|b| + k..|b| + k + |needle|] == a[k..k + |needle|];
    assert OccursAt(b + a, needle, |b| + k);
  }

  /** Being a substring is transitive. */
  lemma ContainsTransitive(hay: string, middle: string, needle: string)
    requires Contains(hay, middle) && Contains(middle, needle)
    ensures Contains(hay, needle)
  {
    ContainsIffOccurs(hay, middle);
    ContainsIffOccurs(middle, needle);
    ContainsIffOccurs(hay, needle);
    var i :| OccursAt(hay, middle, i);
    var j :| OccursAt(middle, needle, j);
    forall k | 0 <= k < |needle| ensures hay[i + j + k] == needle[k] {
      assert hay[i..i + |middle|][j + k] == middle[j + k];
      assert middle[j..j + |needle|][k] == needle[k];
    }
    assert hay[i + j..i + j + |needle|] == needle;
    assert OccursAt(hay, needle, i + j);
  }

  /**
   * A needle that does not contain the separator `sep` cannot straddle it:
   * if it occurs in `a + [sep] + b`, it occurs in `a` or in `b`.
   */
  lemma ContainsAcross(a: string, sep: char, b: string, needle: string)
    requires sep !in needle
    requires Contains(a + [sep] + b, needle)
    ensures Contains(a, needle) || Contains(b, needle)
  {
    var s := a + [sep] + b;
    ContainsIffOccurs(s, needle);
    ContainsIffOccurs(a, needle);
    ContainsIffOccurs(b, needle);
    var k :| OccursAt(s, needle, k);
    assert forall j :: 0 <= j < |needle| ==> s[k + j] == needle[j] != sep;
    assert s[|a|] == sep;
    if k + |needle| <= |a| {
      assert s[k..k + |needle|] == a[k..k + |needle|];
      assert OccursAt(a, needle, k);
    } else {
      assert k > |a|;
      assert s[k..k + |needle|] == b[k - |a| - 1..k - |a| - 1 + |needle|];
      assert OccursAt(b, needle, k - |a| - 1);
    }
  }

  /** Words joined by single spaces, `" ".join(words)`. */
  function Unwords(words: seq<string>): string
  {
    if |words| <= 1 then (if words == [] then "" else words[0])
    else words[0] + " " + Unwords(words[1..])
  }

  /** Joining two non-empty word lists is joining each and putting one space between. */
  lemma {:induction false} UnwordsAppend(a: seq<string>, b: seq<string>)
    requires a != [] && b != []
    ensures Unwords(a + b) == Unwords(a) + " " + Unwords(b)
    decreases |a|
  {
    if |a| == 1 {
      assert (a + b)[1..] == b;
    } else {
      assert (a + b)[1..] == a[1..] + b;
      UnwordsAppend(a[1..], b);
    }
  }

  /** A needle without a space occurs in a sentence only if it occurs in one of its words. */
  lemma {:induction false} AbsentFromUnwords(words: seq<string>, needle: string)
    requires needle != [] && ' ' !in needle
    requires forall k :: 0 <= k < |words| ==> !Contains(words[k], needle)
    ensures !Contains(Unwords(words), needle)
  {
    if |words| > 1 {
      AbsentFromUnwords(words[1..], needle);
      if Contains(Unwords(words), needle) {
        ContainsAcross(words[0], ' ', Unwords(words[1..]), needle);
      }
    }
  }
}
