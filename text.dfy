/** String operations the core applies to messages, keywords and identifiers.
    Strings are sequences of characters; case folding is ASCII only. */
module Text {

  /** Python's `str.lower()` on one character, restricted to ASCII letters. */
  function LowerChar(c: char): char {
    if 'A' <= c <= 'Z' then (c as int + 32) as char else c
  }

  /** Python's `str.lower()`, restricted to ASCII letters. */
  function Lower(s: string): (r: string)
    ensures |r| == |s|
    ensures forall i :: 0 <= i < |s| ==> r[i] == LowerChar(s[i])
  {
    if s == [] then [] else [LowerChar(s[0])] + Lower(s[1..])
  }

  lemma LowerAppend(a: string, b: string)
    ensures Lower(a + b) == Lower(a) + Lower(b)
  {
  }

  /** `k` occurs in `s` starting at index `i`. */
  predicate OccursAt(s: string, k: string, i: int) {
    0 <= i && i + |k| <= |s| && s[i..i + |k|] == k
  }

  /** Python's `k in s` for two strings: a substring test. */
  predicate Contains(s: string, k: string) {
    exists i | 0 <= i <= |s| - |k| :: OccursAt(s, k, i)
  }

  lemma ContainsWitness(s: string, k: string, i: int)
    requires OccursAt(s, k, i)
    ensures Contains(s, k)
  {
  }

  lemma ContainsSelf(k: string)
    ensures Contains(k, k)
  {
    assert OccursAt(k, k, 0);
  }

  /** An occurrence survives text added on either side. */
  lemma ContainsExtend(s: string, k: string, before: string, after: string)
    requires Contains(s, k)
    ensures Contains(before + s + after, k)
  {
    var i :| 0 <= i <= |s| - |k| && OccursAt(s, k, i);
    var t := before + s + after;
    assert t[|before| + i..|before| + i + |k|] == s[i..i + |k|];
    ContainsWitness(t, k, |before| + i);
  }

  /** An occurrence survives text added after it. */
  lemma ContainsAppend(s: string, k: string, after: string)
    requires Contains(s, k)
    ensures Contains(s + after, k)
  {
    var i :| 0 <= i <= |s| - |k| && OccursAt(s, k, i);
    assert (s + after)[i..i + |k|] == s[i..i + |k|];
    ContainsWitness(s + after, k, i);
  }

  /** Python's `any(k in s for k in keywords)`. */
  predicate ContainsAny(s: string, keywords: seq<string>) {
    exists j | 0 <= j < |keywords| :: Contains(s, keywords[j])
  }

  lemma ContainsAnyExtend(s: string, keywords: seq<string>, before: string, after: string)
    requires ContainsAny(s, keywords)
    ensures ContainsAny(before + s + after, keywords)
  {
    var j :| 0 <= j < |keywords| && Contains(s, keywords[j]);
    ContainsExtend(s, keywords[j], before, after);
  }

  /** Python's `s[:n]` for `n >= 0`: the first `n` elements, or all of `s`. */
  function Take<T>(s: seq<T>, n: nat): (r: seq<T>)
    ensures |r| == if |s| <= n then |s| else n
    ensures r <= s
  {
    if |s| <= n then s else s[..n]
  }

  /** The last `n` elements of a sequence: Python's `xs[-n:]` for `n > 0`. */
  function Last<T>(xs: seq<T>, n: nat): (r: seq<T>)
    ensures |r| == if |xs| <= n then |xs| else n
    ensures forall i :: 0 <= i < |r| ==> r[i] == xs[|xs| - |r| + i]
  {
    if |xs| <= n then xs else xs[|xs| - n..]
  }

  /** The characters Python's `str.strip()` removes: those for which
      `str.isspace()` holds, including the separators U+001C..U+001F and the
      Unicode spaces. */
  predicate IsSpace(c: char) {
    || '\t' <= c <= '\r'
    || '\U{001C}' <= c <= ' '
    || c == '\U{0085}' || c == '\U{00A0}' || c == '\U{1680}'
    || '\U{2000}' <= c <= '\U{200A}'
    || c == '\U{2028}' || c == '\U{2029}' || c == '\U{202F}' || c == '\U{205F}' || c == '\U{3000}'
  }

  predicate AllSpace(s: string) {
    forall i | 0 <= i < |s| :: IsSpace(s[i])
  }

  /** Drops leading whitespace. */
  function TrimStart(s: string): (r: string)
    ensures r == [] || !IsSpace(r[0])
    ensures r == [] <==> AllSpace(s)
    ensures |r| <= |s| && r == s[|s| - |r|..]
  {
    if s != [] && IsSpace(s[0]) then
      assert AllSpace(s) <==> AllSpace(s[1..]) by {
        if AllSpace(s[1..]) {
          forall i | 0 <= i < |s| ensures IsSpace(s[i]) {
            if i > 0 { assert s[i] == s[1..][i - 1]; }
          }
        }
      }
      TrimStart(s[1..])
    else
      s
  }

  /** Drops trailing whitespace. */
  function TrimEnd(s: string): (r: string)
    ensures r == [] || !IsSpace(r[|r| - 1])
    ensures r == [] <==> AllSpace(s)
    ensures |r| <= |s| && r == s[..|r|]
  {
    if s != [] && IsSpace(s[|s| - 1]) then
      var p := s[..|s| - 1];
      assert AllSpace(s) <==> AllSpace(p) by {
        if AllSpace(p) {
          forall i | 0 <= i < |s| ensures IsSpace(s[i]) {
            if i < |s| - 1 { assert s[i] == p[i]; }
          }
        }
      }
      TrimEnd(p)
    else
      s
  }

  /** Python's `str.strip()` with no argument. */
  function Strip(s: string): string {
    TrimEnd(TrimStart(s))
  }

  /** `s.strip()` is empty exactly when `s` is all whitespace (the test that
      makes a blank chat message falsy). */
  lemma StripEmpty(s: string)
    ensures Strip(s) == "" <==> AllSpace(s)
  {
    var t := TrimStart(s);
    if t != [] {
      assert !AllSpace(t) by { assert !IsSpace(t[0]); }
    }
  }

  /** Python's `sep.join(xs)`. */
  function Join(xs: seq<string>, sep: string): (r: string)
    ensures xs == [] ==> r == ""
  {
    if xs == [] then ""
    else if |xs| == 1 then xs[0]
    else Join(xs[..|xs| - 1], sep) + sep + xs[|xs| - 1]
  }

  /** Every part appears in the joined text. */
  lemma {:induction false} JoinContainsPart(xs: seq<string>, sep: string, j: int)
    requires 0 <= j < |xs|
    ensures Contains(Join(xs, sep), xs[j])
  {
    if |xs| == 1 {
      ContainsWitness(xs[0], xs[0], 0);
    } else if j == |xs| - 1 {
      var pre := Join(xs[..|xs| - 1], sep) + sep;
      ContainsWitness(xs[j], xs[j], 0);
      ContainsExtend(xs[j], xs[j], pre, "");
      assert pre + xs[j] + "" == Join(xs, sep);
    } else {
      JoinContainsPart(xs[..|xs| - 1], sep, j);
      ContainsExtend(Join(xs[..|xs| - 1], sep), xs[j], "", sep + xs[|xs| - 1]);
      assert "" + Join(xs[..|xs| - 1], sep) + (sep + xs[|xs| - 1]) == Join(xs, sep);
    }
  }

  /** Python's `s.replace(from, to)` for one character by another. */
  function ReplaceChar(s: string, from: char, to: char): (r: string)
    ensures |r| == |s|
    ensures forall i :: 0 <= i < |s| ==> r[i] == if s[i] == from then to else s[i]
  {
    if s == [] then [] else [if s[0] == from then to else s[0]] + ReplaceChar(s[1..], from, to)
  }

  function DigitChar(d: nat): char
    requires d < 10
  {
    "0123456789"[d]
  }

  /** Python's `str(n)` for a natural number. */
  function NatToString(n: nat): (r: string)
    ensures r != ""
    ensures forall i :: 0 <= i < |r| ==> '0' <= r[i] <= '9'
    decreases n
  {
    if n < 10 then [DigitChar(n)] else NatToString(n / 10) + [DigitChar(n % 10)]
  }

  /** Python's `str(i)` for an integer. */
  function IntToString(i: int): (r: string)
    ensures r != ""
  {
    if i < 0 then "-" + NatToString(-i) else NatToString(i)
  }
}
