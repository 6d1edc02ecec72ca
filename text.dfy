/**
 * The few operations on Python `str` values that app.py relies on, on strings
 * modelled as sequences of characters: `strip()`, `lower()`, substring
 * search (`in`), `split`, `rsplit(sep, 1)`, `replace` and `count` of one
 * character.
 */
module Text {
  import opened Wrappers

  /** Python's `str.isspace()` for one character: the set `strip()` removes. */
  predicate IsSpace(c: char) {
    c == ' ' || ('\t' <= c <= '\r') || ('\U{1c}' <= c <= '\U{1f}')
    || c == '\U{85}' || c == '\U{a0}' || c == '\U{1680}'
    || ('\U{2000}' <= c <= '\U{200a}') || c == '\U{2028}' || c == '\U{2029}'
    || c == '\U{202f}' || c == '\U{205f}' || c == '\U{3000}'
  }

  /** A string with no whitespace at either end. */
  predicate IsStripped(s: string) {
    s == [] || (!IsSpace(s[0]) && !IsSpace(s[|s| - 1]))
  }

  /** `s.lstrip()`. */
  function TrimLeft(s: string): string {
    if |s| > 0 && IsSpace(s[0]) then TrimLeft(s[1..]) else s
  }

  /** `lstrip()` drops the leading whitespace and nothing else. */
  lemma {:induction false} TrimLeftDropsSpace(s: string)
    ensures |TrimLeft(s)| <= |s| && TrimLeft(s) == s[|s| - |TrimLeft(s)|..]
    ensures forall k :: 0 <= k < |s| - |TrimLeft(s)| ==> IsSpace(s[k])
    ensures TrimLeft(s) == [] || !IsSpace(TrimLeft(s)[0])
  {
    if |s| > 0 && IsSpace(s[0]) {
      TrimLeftDropsSpace(s[1..]);
    }
  }

  /** `s.rstrip()`. */
  function TrimRight(s: string): string {
    if |s| > 0 && IsSpace(s[|s| - 1]) then TrimRight(s[..|s| - 1]) else s
  }

  /** `rstrip()` drops the trailing whitespace and nothing else. */
  lemma {:induction false} TrimRightDropsSpace(s: string)
    ensures |TrimRight(s)| <= |s| && TrimRight(s) == s[..|TrimRight(s)|]
    ensures forall k :: |TrimRight(s)| <= k < |s| ==> IsSpace(s[k])
    ensures TrimRight(s) == [] || !IsSpace(TrimRight(s)[|TrimRight(s)| - 1])
  {
    if |s| > 0 && IsSpace(s[|s| - 1]) {
      TrimRightDropsSpace(s[..|s| - 1]);
    }
  }

  /** `s.strip()`. */
  function Strip(s: string): string {
    TrimRight(TrimLeft(s))
  }

  /** Strip keeps a contiguous slice of its input, drops only whitespace, and leaves none at the ends. */
  lemma StripSlice(s: string)
    ensures exists i, j ::
              && 0 <= i <= j <= |s| && Strip(s) == s[i..j]
              && (forall k :: 0 <= k < i ==> IsSpace(s[k]))
              && (forall k :: j <= k < |s| ==> IsSpace(s[k]))
    ensures IsStripped(Strip(s))
  {
    var l := TrimLeft(s);
    TrimLeftDropsSpace(s);
    var r := TrimRight(l);
    TrimRightDropsSpace(l);
    var i := |s| - |l|;
    assert r == s[i..i + |r|];
  }

  /** A string that has no whitespace at its ends is its own strip. */
  lemma StrippedFixed(s: string)
    requires IsStripped(s)
    ensures Strip(s) == s
  {
    assert TrimLeft(s) == s;
  }

  /** `strip()` is idempotent. */
  lemma StripIdempotent(s: string)
    ensures Strip(Strip(s)) == Strip(s)
  {
    StripSlice(s);
    StrippedFixed(Strip(s));
  }

  /** `c.lower()` for the characters whose lower-case form is an ASCII letter. */
  function LowerChar(c: char): char {
    if 'A' <= c <= 'Z' then (c as int + 32) as char
    else if c == '\U{212a}' then 'k'  // KELVIN SIGN
    else c
  }

  /** `s.lower()`, character by character. */
  function Lower(s: string): (r: string)
    ensures |r| == |s|
    ensures forall k :: 0 <= k < |s| ==> r[k] == LowerChar(s[k])
  {
    if s == [] then [] else [LowerChar(s[0])] + Lower(s[1..])
  }

  /** `pat` occurs in `s` starting at index `i`. */
  predicate OccursAt(s: string, pat: string, i: int) {
    0 <= i && i + |pat| <= |s| && s[i..i + |pat|] == pat
  }

  /** `s.find(pat)`: the first index at or after `from` where `pat` occurs, if any. */
  function IndexOf(s: string, pat: string, from: nat := 0): (r: Option<nat>)
    ensures r.Some? ==> from <= r.value && OccursAt(s, pat, r.value)
    decreases |s| - from
  {
    if from + |pat| > |s| then None
    else if s[from..from + |pat|] == pat then Some(from)
    else IndexOf(s, pat, from + 1)
  }

  /** `find` gives the first occurrence at or after `from`, and none means there is none. */
  lemma {:induction false} IndexOfFirst(s: string, pat: string, from: nat)
    ensures IndexOf(s, pat, from).Some? ==> forall k :: from <= k < IndexOf(s, pat, from).value ==> !OccursAt(s, pat, k)
    ensures IndexOf(s, pat, from).None? ==> forall k :: from <= k ==> !OccursAt(s, pat, k)
    decreases |s| - from
  {
    if from + |pat| <= |s| && s[from..from + |pat|] != pat {
      IndexOfFirst(s, pat, from + 1);
    }
  }

  /** Python's `pat in s` for strings. */
  predicate Contains(s: string, pat: string) {
    IndexOf(s, pat).Some?
  }

  /** `Contains` holds exactly when some occurrence exists. */
  lemma ContainsIff(s: string, pat: string)
    ensures Contains(s, pat) <==> exists k :: OccursAt(s, pat, k)
  {
    IndexOfFirst(s, pat, 0);
    if exists k :: OccursAt(s, pat, k) {
      var k :| OccursAt(s, pat, k);
      assert k >= 0;
    }
  }

  /** `s.replace(a, b)` for one-character `a` and `b`. */
  function Replace(s: string, a: char, b: char): (r: string)
    ensures |r| == |s|
    ensures forall k :: 0 <= k < |s| ==> r[k] == (if s[k] == a then b else s[k])
  {
    if s == [] then [] else [if s[0] == a then b else s[0]] + Replace(s[1..], a, b)
  }

  /** Replacing a character that does not occur changes nothing. */
  lemma ReplaceAbsent(s: string, a: char, b: char)
    requires a !in s
    ensures Replace(s, a, b) == s
  {
  }

  /** `s.count(c)` for one character `c`. */
  function Count(s: string, c: char): (n: nat)
    ensures n == multiset(s)[c]
    ensures n == 0 <==> c !in s
    ensures n <= |s|
  {
    assert s != [] ==> s == [s[0]] + s[1..];
    if s == [] then 0 else (if s[0] == c then 1 else 0) + Count(s[1..], c)
  }

  /** Concatenates `parts` with `d` between neighbours: Python's `d.join(parts)`. */
  function Join(parts: seq<string>, d: char): string
    requires |parts| >= 1
  {
    if |parts| == 1 then parts[0] else parts[0] + [d] + Join(parts[1..], d)
  }

  /** `s.split(d)` for a one-character separator `d`. */
  function Split(s: string, d: char): (r: seq<string>)
    ensures |r| >= 1
  {
    if s == [] then [""]
    else
      var rest := Split(s[1..], d);
      if s[0] == d then [""] + rest
      else [[s[0]] + rest[0]] + rest[1..]
  }

  /** Splitting and joining again gives back the string. */
  lemma {:induction false} SplitJoin(s: string, d: char)
    ensures Join(Split(s, d), d) == s
  {
    if s != [] {
      var rest := Split(s[1..], d);
      SplitJoin(s[1..], d);
      if s[0] == d {
        assert Split(s, d)[1..] == rest;
        assert s == [d] + s[1..];
      } else if |rest| == 1 {
        assert s == [s[0]] + s[1..];
      } else {
        assert Split(s, d)[1..] == rest[1..];
        assert s == [s[0]] + s[1..];
        assert Join(rest, d) == rest[0] + [d] + Join(rest[1..], d);
      }
    }
  }

  /** Splitting at the first separator: the text before it is the first piece. */
  lemma {:induction false} SplitAtFirst(s: string, d: char, t: string)
    requires d !in s
    ensures Split(s, d) == [s]
    ensures Split(s + [d] + t, d) == [s] + Split(t, d)
  {
    if s != [] {
      var u := s + [d] + t;
      assert u[1..] == s[1..] + [d] + t;
      SplitAtFirst(s[1..], d, t);
      assert Split(u, d) == [[s[0]] + s[1..]] + Split(t, d);
      assert [s[0]] + s[1..] == s;
    }
  }

  /**
   * If `pat` contains no `d` and occurs at `i` in `s`, it occurs inside one of
   * the pieces of `s.split(d)`.
   */
  lemma {:induction false} SplitKeepsOccurrence(s: string, d: char, pat: string, i: nat)
    requires d !in pat && |pat| > 0
    requires OccursAt(s, pat, i)
    ensures exists k :: 0 <= k < |Split(s, d)| && Contains(Split(s, d)[k], pat)
  {
    var rest := Split(s[1..], d);
    if i > 0 {
      assert s[1..][i - 1..i - 1 + |pat|] == s[i..i + |pat|];
      SplitKeepsOccurrence(s[1..], d, pat, i - 1);
      var k :| 0 <= k < |rest| && Contains(rest[k], pat);
      if s[0] == d {
        assert Split(s, d)[k + 1] == rest[k];
      } else if k > 0 {
        assert Split(s, d)[k] == rest[k];
      } else {
        assert Split(s, d)[0] == [s[0]] + rest[0];
        ContainsAfterChar(s[0], rest[0], pat);
      }
    } else {
      FirstPieceIsPrefix(s, d);
      ContainsAtStart(Split(s, d)[0], s, d, pat);
    }
  }

  /** Putting a character in front keeps an occurrence. */
  lemma ContainsAfterChar(c: char, q: string, pat: string)
    requires Contains(q, pat)
    ensures Contains([c] + q, pat)
  {
    var j := IndexOf(q, pat).value;
    assert ([c] + q)[j + 1..j + 1 + |pat|] == q[j..j + |pat|];
    assert OccursAt([c] + q, pat, j + 1);
    ContainsIff([c] + q, pat);
  }

  /**
   * A `d`-free `pat` at the start of `s` lies within any prefix `p` of `s`
   * that ends at a `d` or at the end of `s`.
   */
  lemma ContainsAtStart(p: string, s: string, d: char, pat: string)
    requires d !in pat && OccursAt(s, pat, 0)
    requires |p| <= |s| && p == s[..|p|] && (|p| < |s| ==> s[|p|] == d)
    ensures Contains(p, pat)
  {
    forall k | 0 <= k < |pat| ensures s[k] != d {
      assert s[k] == pat[k];
    }
    assert p[0..|pat|] == pat;
    assert OccursAt(p, pat, 0);
    ContainsIff(p, pat);
  }

  /**
   * The first piece of `s.split(d)` is the prefix of `s` before its first `d`:
   * a prefix of `s`, followed in `s` by `d` or by the end.
   */
  lemma {:induction false} FirstPieceIsPrefix(s: string, d: char)
    ensures |Split(s, d)[0]| <= |s| && Split(s, d)[0] == s[..|Split(s, d)[0]|]
    ensures |Split(s, d)[0]| < |s| ==> s[|Split(s, d)[0]|] == d
  {
    if s != [] && s[0] != d {
      FirstPieceIsPrefix(s[1..], d);
    }
  }

  /** The index of the last `d` among the first `n` characters of `s`, if any. */
  function LastIndex(s: string, d: char, n: nat): (r: Option<nat>)
    requires n <= |s|
    ensures r.Some? ==> r.value < n && s[r.value] == d
    ensures r.Some? ==> forall k :: r.value < k < n ==> s[k] != d
    ensures r.None? ==> forall k :: 0 <= k < n ==> s[k] != d
  {
    if n == 0 then None
    else if s[n - 1] == d then Some(n - 1)
    else LastIndex(s, d, n - 1)
  }

  /**
   * `s.rsplit(d, 1)[-1]`: the text after the last `d`, or all of `s` when it
   * holds no `d`.
   */
  function AfterLast(s: string, d: char): (r: string)
    ensures |r| <= |s| && r == s[|s| - |r|..]
    ensures d !in r
    ensures d in s ==> |r| < |s| && s[|s| - |r| - 1] == d
    ensures d !in s ==> r == s
  {
    match LastIndex(s, d, |s|)
    case None => s
    case Some(i) => s[i + 1..]
  }

  /**
   * `p.split(pat)[-1]` for a non-empty `pat`: splitting scans left to right
   * and the last piece is what follows the last match.
   */
  function LastPiece(p: string, pat: string): string
    requires |pat| > 0
    decreases |p|
  {
    match IndexOf(p, pat)
    case None => p
    case Some(i) => LastPiece(p[i + |pat|..], pat)
  }

  /** The last piece is a suffix of `p` that holds no `pat`. */
  lemma {:induction false} LastPieceSuffix(p: string, pat: string)
    requires |pat| > 0
    ensures |LastPiece(p, pat)| <= |p| && LastPiece(p, pat) == p[|p| - |LastPiece(p, pat)|..]
    ensures !Contains(LastPiece(p, pat), pat)
    decreases |p|
  {
    match IndexOf(p, pat)
    case None =>
      assert p[0..] == p;
    case Some(i) =>
      var rest := p[i + |pat|..];
      LastPieceSuffix(rest, pat);
      var r := LastPiece(rest, pat);
      assert LastPiece(p, pat) == r;
      assert p[|p| - |r|..] == rest[|rest| - |r|..];
  }

  /** Python's `s.endswith(t)`. */
  predicate EndsWith(s: string, t: string) {
    |t| <= |s| && s[|s| - |t|..] == t
  }

  /** When `p` holds `pat`, its last piece comes right after an occurrence of `pat`. */
  lemma {:induction false} LastPieceFollowsMatch(p: string, pat: string)
    requires |pat| > 0 && Contains(p, pat)
    ensures EndsWith(p, pat + LastPiece(p, pat))
    decreases |p|
  {
    var i := IndexOf(p, pat).value;
    var rest := p[i + |pat|..];
    assert LastPiece(p, pat) == LastPiece(rest, pat);
    if Contains(rest, pat) {
      LastPieceFollowsMatch(rest, pat);
      EndsWithSuffix(p, i + |pat|, pat + LastPiece(rest, pat));
    } else {
      LastPieceNoMatch(rest, pat);
      assert p[i..] == p[i..i + |pat|] + rest;
    }
  }

  /** The last piece of a string that holds no `pat` is the string itself. */
  lemma LastPieceNoMatch(s: string, pat: string)
    requires |pat| > 0 && !Contains(s, pat)
    ensures LastPiece(s, pat) == s
  {
  }

  /** What a suffix of `p` ends with, `p` ends with too. */
  lemma EndsWithSuffix(p: string, off: nat, t: string)
    requires off <= |p| && EndsWith(p[off..], t)
    ensures EndsWith(p, t)
  {
    assert p[off..][|p| - off - |t|..] == p[|p| - |t|..];
  }
}
