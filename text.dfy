/**
 * The Python `str` operations the app relies on: `lower`, `strip`,
 * the substring test `k in s`, and `sep.join(xs)`.
 */
module Text {

  // ---------------------------------------------------------------------
  // Lower-casing
  // ---------------------------------------------------------------------

  /**
   * `str.lower` on one character, for the characters whose lower case is
   * ASCII: the letters A-Z and the KELVIN SIGN, which lowers to 'k'.
   * Every other character is left as it is.
   */
  function LowerChar(c: char): char
  {
    if 'A' <= c <= 'Z' then (c as int - 'A' as int + 'a' as int) as char
    else if c == '\U{212A}' then 'k'
    else c
  }

  function Lower(s: string): (r: string)
    ensures |r| == |s|
    ensures forall i :: 0 <= i < |s| ==> r[i] == LowerChar(s[i])
  {
    if s == [] then [] else [LowerChar(s[0])] + Lower(s[1..])
  }

  lemma LowerAppend(a: string, b: string)
    ensures Lower(a + b) == Lower(a) + Lower(b)
  {
    assert forall i :: 0 <= i < |a + b| ==> Lower(a + b)[i] == (Lower(a) + Lower(b))[i];
  }

  // ---------------------------------------------------------------------
  // Substrings
  // ---------------------------------------------------------------------

  /** `k` occurs in `s` starting at index `i`. */
  predicate OccursAt(k: string, s: string, i: int)
  {
    0 <= i && i + |k| <= |s| && s[i..i + |k|] == k
  }

  /** Python's `k in s` on strings. */
  function Contains(s: string, k: string): (r: bool)
    ensures r <==> exists i :: OccursAt(k, s, i)
  {
    ContainsFrom(s, k, 0)
  }

  /** Whether `k` occurs in `s` at some index `from` or later. */
  function ContainsFrom(s: string, k: string, from: nat): (r: bool)
    ensures r <==> exists i :: from <= i && OccursAt(k, s, i)
    decreases |s| - from
  {
    if from + |k| > |s| then false
    else if s[from..from + |k|] == k then assert OccursAt(k, s, from); true
    else ContainsFrom(s, k, from + 1)
  }

  /** Text around an occurrence does not hide it. */
  lemma ContainsInContext(p: string, s: string, t: string, k: string)
    requires Contains(s, k)
    ensures Contains(p + s + t, k)
  {
    var i :| OccursAt(k, s, i);
    var u := p + s + t;
    assert u[|p| + i..|p| + i + |k|] == s[i..i + |k|];
    assert OccursAt(k, u, |p| + i);
  }

  // ---------------------------------------------------------------------
  // Whitespace and strip
  // ---------------------------------------------------------------------

  /** The characters for which Python's `str.isspace` holds. */
  predicate IsSpace(c: char)
  {
    c == ' ' || '\t' <= c <= '\r' || '\U{1C}' <= c <= '\U{1F}'
    || c == '\U{85}' || c == '\U{A0}' || c == '\U{1680}'
    || '\U{2000}' <= c <= '\U{200A}' || c == '\U{2028}' || c == '\U{2029}'
    || c == '\U{202F}' || c == '\U{205F}' || c == '\U{3000}'
  }

  predicate AllSpace(s: string)
  {
    forall i :: 0 <= i < |s| ==> IsSpace(s[i])
  }

  /**
   * `r` is `s` with its leading and trailing whitespace removed, where
   * that whitespace ends at index `a`: `r` sits at `a` in `s`, everything
   * around it is whitespace, and `r` itself neither starts nor ends with
   * whitespace.
   */
  predicate StrippedAt(s: string, r: string, a: int)
  {
    0 <= a && a + |r| <= |s| && s[a..a + |r|] == r
    && AllSpace(s[..a]) && AllSpace(s[a + |r|..])
    && (r == [] || (!IsSpace(r[0]) && !IsSpace(r[|r| - 1])))
  }

  /** The first index at or after `i` that is not whitespace, or `|s|`. */
  function SkipSpaces(s: string, i: nat): (a: nat)
    requires i <= |s|
    ensures i <= a <= |s|
    ensures forall j :: i <= j < a ==> IsSpace(s[j])
    ensures a < |s| ==> !IsSpace(s[a])
    decreases |s| - i
  {
    if i < |s| && IsSpace(s[i]) then SkipSpaces(s, i + 1) else i
  }

  /** The end of `s[a..e]` once its trailing whitespace is dropped. */
  function DropTrailingSpaces(s: string, a: nat, e: nat): (b: nat)
    requires a <= e <= |s|
    ensures a <= b <= e
    ensures forall j :: b <= j < e ==> IsSpace(s[j])
    ensures a < b ==> !IsSpace(s[b - 1])
    decreases e
  {
    if a < e && IsSpace(s[e - 1]) then DropTrailingSpaces(s, a, e - 1) else e
  }

  /** Python's `str.strip()` with no argument. */
  function Strip(s: string): (r: string)
    ensures exists a :: StrippedAt(s, r, a)
  {
    var a := SkipSpaces(s, 0);
    var b := DropTrailingSpaces(s, a, |s|);
    assert AllSpace(s[..a]) && AllSpace(s[b..]);
    assert StrippedAt(s, s[a..b], a);
    s[a..b]
  }

  /** Leading and trailing whitespace determine the stripped string uniquely. */
  lemma StrippedUnique(s: string, r1: string, a1: int, r2: string, a2: int)
    requires StrippedAt(s, r1, a1) && StrippedAt(s, r2, a2)
    ensures r1 == r2
  {
  }

  /** Stripping leaves nothing exactly when the string is all whitespace. */
  lemma {:induction false} StripEmptyIffAllSpace(s: string)
    ensures Strip(s) == [] <==> AllSpace(s)
  {
    var a :| StrippedAt(s, Strip(s), a);
    if AllSpace(s) {
      assert StrippedAt(s, [], 0);
      StrippedUnique(s, Strip(s), a, [], 0);
    } else if Strip(s) == [] {
      forall i | 0 <= i < |s| ensures IsSpace(s[i]) {
        if i < a { assert s[..a][i] == s[i]; } else { assert s[a..][i - a] == s[i]; }
      }
    }
  }

  /** Stripping twice is stripping once. */
  lemma StripIdempotent(s: string)
    ensures Strip(Strip(s)) == Strip(s)
  {
    var r := Strip(s);
    assert r[..0] == [] && r[|r|..] == [] && r[0..|r|] == r;
    assert StrippedAt(r, r, 0);
    var b :| StrippedAt(r, Strip(r), b);
    StrippedUnique(r, Strip(r), b, r, 0);
  }

  // ---------------------------------------------------------------------
  // Join
  // ---------------------------------------------------------------------

  /** Python's `sep.join(xs)`. */
  function Join(xs: seq<string>, sep: string): string
  {
    if |xs| == 0 then ""
    else if |xs| == 1 then xs[0]
    else xs[0] + sep + Join(xs[1..], sep)
  }

  /** Every joined element occurs in the joined string. */
  lemma {:induction false} JoinContainsEach(xs: seq<string>, sep: string, j: int)
    requires 0 <= j < |xs|
    ensures Contains(Join(xs, sep), xs[j])
  {
    if |xs| == 1 {
      assert OccursAt(xs[0], xs[0], 0);
    } else if j == 0 {
      assert OccursAt(xs[0], Join(xs, sep), 0);
    } else {
      JoinContainsEach(xs[1..], sep, j - 1);
      ContainsInContext(xs[0] + sep, Join(xs[1..], sep), "", xs[j]);
      assert xs[0] + sep + Join(xs[1..], sep) + "" == Join(xs, sep);
    }
  }
}
