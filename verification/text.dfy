/** Python `str` operations used by the core, on `seq<char>`.
    `lower()`, `upper()` and `strip()` are approximated by their ASCII
    behaviour; `find`, `in`, `replace(p, "")`, `endswith` and slicing follow
    Python exactly. */
module Text {

  // ---------------------------------------------------------------------------
  // Characters

  /** ASCII characters for which Python's `str.isspace()` holds. */
  predicate IsSpace(c: char) {
    c == ' ' || c == '\t' || c == '\n' || c == '\r'
    || c == '\U{000B}' || c == '\U{000C}'
    || ('\U{001C}' <= c <= '\U{001F}')
  }

  function LowerChar(c: char): (r: char)
    ensures 'A' <= c <= 'Z' ==> 'a' <= r <= 'z'
    ensures !('A' <= c <= 'Z') ==> r == c
  {
    if 'A' <= c <= 'Z' then (c as int + 32) as char else c
  }

  function UpperChar(c: char): (r: char)
    ensures 'a' <= c <= 'z' ==> 'A' <= r <= 'Z'
    ensures !('a' <= c <= 'z') ==> r == c
  {
    if 'a' <= c <= 'z' then (c as int - 32) as char else c
  }

  /** `s.lower()` */
  function Lower(s: string): (r: string)
    ensures |r| == |s|
    ensures forall i | 0 <= i < |s| :: r[i] == LowerChar(s[i])
  {
    seq(|s|, i requires 0 <= i < |s| => LowerChar(s[i]))
  }

  /** `s.upper()` */
  function Upper(s: string): (r: string)
    ensures |r| == |s|
    ensures forall i | 0 <= i < |s| :: r[i] == UpperChar(s[i])
  {
    seq(|s|, i requires 0 <= i < |s| => UpperChar(s[i]))
  }

  /** Upper-casing a slice is slicing the upper-cased string. */
  lemma UpperSlice(s: string, a: nat, b: nat)
    requires a <= b <= |s|
    ensures Upper(s[a..b]) == Upper(s)[a..b]
  {
    assert forall i | 0 <= i < b - a :: Upper(s[a..b])[i] == Upper(s)[a + i];
  }

  lemma LowerIdempotent(s: string)
    ensures Lower(Lower(s)) == Lower(s)
  {
    assert forall i | 0 <= i < |s| :: LowerChar(LowerChar(s[i])) == LowerChar(s[i]);
  }

  // ---------------------------------------------------------------------------
  // Substrings: `sub in s` and `s.find(sub, start)`

  predicate OccursAt(s: string, sub: string, i: int) {
    0 <= i && i + |sub| <= |s| && s[i..i + |sub|] == sub
  }

  /** `sub in s` */
  predicate Contains(s: string, sub: string) {
    exists i | 0 <= i <= |s| - |sub| :: OccursAt(s, sub, i)
  }

  /** `s.find(sub, start)`: the least index `>= start` where `sub` occurs, or -1
      (`FindSpec`). */
  function Find(s: string, sub: string, start: nat): (r: int)
    ensures r == -1 || (start <= r && r + |sub| <= |s|)
    decreases |s| - start
  {
    if start + |sub| > |s| then -1
    else if s[start..start + |sub|] == sub then start
    else Find(s, sub, start + 1)
  }

  /** `find` reports an occurrence, the first from `start`, and -1 only when
      there is none. */
  lemma {:induction false} FindSpec(s: string, sub: string, start: nat)
    ensures var r := Find(s, sub, start);
      && (r == -1 || OccursAt(s, sub, r))
      && (r >= 0 ==> forall i | start <= i < r :: !OccursAt(s, sub, i))
      && (r == -1 ==> forall i | start <= i :: !OccursAt(s, sub, i))
    decreases |s| - start
  {
    if start + |sub| > |s| {
    } else if s[start..start + |sub|] == sub {
    } else {
      FindSpec(s, sub, start + 1);
    }
  }

  lemma FindFromZero(s: string, sub: string)
    ensures Contains(s, sub) <==> Find(s, sub, 0) >= 0
  {
    FindSpec(s, sub, 0);
    if Find(s, sub, 0) >= 0 {
      assert OccursAt(s, sub, Find(s, sub, 0));
    }
  }

  predicate StartsWith(s: string, prefix: string) {
    |prefix| <= |s| && s[..|prefix|] == prefix
  }

  /** `s.endswith(suffix)` */
  predicate EndsWith(s: string, suffix: string) {
    |suffix| <= |s| && s[|s| - |suffix|..] == suffix
  }

  /** An occurrence inside a slice is an occurrence in the whole string. */
  lemma ContainsSlice(s: string, a: nat, b: nat, sub: string)
    requires a <= b <= |s|
    ensures Contains(s[a..b], sub) ==> Contains(s, sub)
  {
    if Contains(s[a..b], sub) {
      var i :| 0 <= i <= |s[a..b]| - |sub| && OccursAt(s[a..b], sub, i);
      var u, w := s[a..b][i..i + |sub|], s[a + i..a + i + |sub|];
      assert forall k | 0 <= k < |sub| :: u[k] == w[k];
      assert u == w;
      assert OccursAt(s, sub, a + i);
    }
  }

  /** Wherever a string occurs, so do its prefixes. */
  lemma ContainsPrefixPart(s: string, sub: string, k: nat)
    requires k <= |sub|
    ensures Contains(s, sub) ==> Contains(s, sub[..k])
  {
    if Contains(s, sub) {
      var i :| 0 <= i <= |s| - |sub| && OccursAt(s, sub, i);
      assert s[i..i + k] == s[i..i + |sub|][..k];
      assert OccursAt(s, sub[..k], i);
    }
  }

  /** A string occurs in any concatenation that has it as a middle part. */
  lemma ContainsMiddle(a: string, b: string, c: string)
    ensures Contains(a + b + c, b)
  {
    assert (a + b + c)[|a|..|a| + |b|] == b;
    assert OccursAt(a + b + c, b, |a|);
  }

  // ---------------------------------------------------------------------------
  // Python slicing `s[i:j]` with negative indices counted from the end

  function ClampIndex(n: nat, k: int): (r: nat)
    ensures r <= n
  {
    if k < 0 then (if n + k < 0 then 0 else n + k) else if k > n then n else k
  }

  function PySlice(s: string, i: int, j: int): (r: string)
    ensures |r| <= |s|
  {
    var a := ClampIndex(|s|, i);
    var b := ClampIndex(|s|, j);
    if a < b then s[a..b] else []
  }

  /** An in-range slice is the plain slice; an end of -1 stops one short of
      the end of the string. */
  lemma PySliceFacts(s: string, i: nat, j: int)
    ensures i <= j <= |s| ==> PySlice(s, i, j) == s[i..j]
    ensures j == -1 ==> PySlice(s, i, j) == if i < |s| - 1 then s[i..|s| - 1] else ""
  {
  }

  // ---------------------------------------------------------------------------
  // `s.strip()`

  /** Number of leading whitespace characters (`LeadIsSpace`). */
  function LeadCount(s: string): (n: nat)
    ensures n <= |s|
    ensures n < |s| ==> !IsSpace(s[n])
  {
    if |s| > 0 && IsSpace(s[0]) then 1 + LeadCount(s[1..]) else 0
  }

  lemma {:induction false} LeadIsSpace(s: string)
    ensures forall i | 0 <= i < LeadCount(s) :: IsSpace(s[i])
    decreases |s|
  {
    if |s| > 0 && IsSpace(s[0]) {
      LeadIsSpace(s[1..]);
      assert forall i | 1 <= i < LeadCount(s) :: s[i] == s[1..][i - 1];
    }
  }

  /** Number of trailing whitespace characters (`TrailIsSpace`). */
  function TrailCount(s: string): (n: nat)
    ensures n <= |s|
    ensures n < |s| ==> !IsSpace(s[|s| - 1 - n])
  {
    if |s| > 0 && IsSpace(s[|s| - 1]) then 1 + TrailCount(s[..|s| - 1]) else 0
  }

  lemma {:induction false} TrailIsSpace(s: string)
    ensures forall i | |s| - TrailCount(s) <= i < |s| :: IsSpace(s[i])
    decreases |s|
  {
    if |s| > 0 && IsSpace(s[|s| - 1]) {
      TrailIsSpace(s[..|s| - 1]);
      assert forall i | |s| - TrailCount(s) <= i < |s| - 1 :: s[i] == s[..|s| - 1][i];
    }
  }

  /** `s.strip()`: the longest slice without leading or trailing whitespace,
      obtained by removing whitespace only. */
  function Strip(s: string): (r: string)
    ensures LeadCount(s) + |r| <= |s| && r == s[LeadCount(s)..LeadCount(s) + |r|]
    ensures |r| > 0 ==> !IsSpace(r[0]) && !IsSpace(r[|r| - 1])
  {
    var t := s[LeadCount(s)..];
    t[..|t| - TrailCount(t)]
  }

  /** What `strip()` removed is whitespace on both sides. */
  lemma StripSurround(s: string)
    ensures forall i | 0 <= i < LeadCount(s) :: IsSpace(s[i])
    ensures forall i | LeadCount(s) + |Strip(s)| <= i < |s| :: IsSpace(s[i])
  {
    var t := s[LeadCount(s)..];
    LeadIsSpace(s);
    TrailIsSpace(t);
    assert forall i | LeadCount(s) + |Strip(s)| <= i < |s| :: s[i] == t[i - LeadCount(s)];
  }

  /** A string with no whitespace at either end strips to itself. */
  lemma StripUnspaced(s: string)
    requires |s| > 0 ==> !IsSpace(s[0]) && !IsSpace(s[|s| - 1])
    ensures Strip(s) == s
  {
    assert LeadCount(s) == 0;
    assert s[0..] == s;
    assert TrailCount(s) == 0;
  }

  // ---------------------------------------------------------------------------
  // `s.replace(p, "")`: leftmost, non-overlapping removal

  function RemoveAll(s: string, p: string): (r: string)
    requires |p| > 0
    decreases |s|
  {
    if |s| < |p| then s
    else if s[..|p|] == p then RemoveAll(s[|p|..], p)
    else [s[0]] + RemoveAll(s[1..], p)
  }

  lemma {:induction false} RemoveAllNoChar(s: string, c: char)
    ensures c !in RemoveAll(s, [c])
    decreases |s|
  {
    if |s| < 1 {
    } else if s[..1] == [c] {
      RemoveAllNoChar(s[1..], c);
    } else {
      RemoveAllNoChar(s[1..], c);
      assert s[0] != c by { assert s[..1] == [s[0]]; }
    }
  }

  /** If the pattern occurs, removing it shortens the string. */
  lemma {:induction false} RemoveAllShrinks(s: string, p: string)
    requires |p| > 0
    ensures Contains(s, p) ==> |RemoveAll(s, p)| < |s|
    decreases |s|
  {
    if !Contains(s, p) || |s| < |p| {
    } else if s[..|p|] == p {
      RemoveAllSub(s[|p|..], p);
      SubsequenceLength(RemoveAll(s[|p|..], p), s[|p|..]);
    } else {
      var i :| 0 <= i <= |s| - |p| && OccursAt(s, p, i);
      if i == 0 {
        assert false;
      }
      assert s[1..][i - 1..i - 1 + |p|] == s[i..i + |p|];
      assert OccursAt(s[1..], p, i - 1);
      RemoveAllShrinks(s[1..], p);
    }
  }

  lemma RemoveAllSub(s: string, p: string)
    requires |p| > 0
    ensures IsSubsequence(RemoveAll(s, p), s)
    decreases |s|
  {
    if |s| < |p| {
      SubsequenceRefl(s);
    } else if s[..|p|] == p {
      RemoveAllSub(s[|p|..], p);
      SuffixSub(s, |p|);
      SubsequenceTrans(RemoveAll(s[|p|..], p), s[|p|..], s);
    } else {
      RemoveAllSub(s[1..], p);
      var r := [s[0]] + RemoveAll(s[1..], p);
      assert r[1..] == RemoveAll(s[1..], p);
    }
  }

  // ---------------------------------------------------------------------------
  // Obtained by deletions only

  /** `a` is obtained from `b` by deleting characters. */
  predicate IsSubsequence(a: string, b: string)
    decreases |b|
  {
    if |a| == 0 then true
    else if |b| == 0 then false
    else if a[0] == b[0] then IsSubsequence(a[1..], b[1..])
    else IsSubsequence(a, b[1..])
  }

  lemma SubsequenceRefl(a: string)
    ensures IsSubsequence(a, a)
  {
  }

  lemma {:induction false} SubsequenceDropHead(a: string, b: string)
    requires |a| > 0 && IsSubsequence(a, b)
    ensures IsSubsequence(a[1..], b)
    decreases |b|
  {
    if |a[1..]| == 0 {
    } else if a[0] == b[0] {
      SubsequenceDropHead(a[1..], b[1..]);
      Weaken(a[1..][1..], b);
      assert a[1..][0] == a[1];
      if a[1] == b[0] {
      } else {
        Weaken(a[1..], b);
      }
    } else {
      SubsequenceDropHead(a, b[1..]);
      Weaken(a[1..], b);
    }
  }

  lemma {:induction false} Weaken(a: string, b: string)
    requires |b| > 0 && IsSubsequence(a, b[1..])
    ensures IsSubsequence(a, b)
    decreases |b|, 1
  {
    if |a| > 0 && a[0] == b[0] {
      SubsequenceDropHead(a, b[1..]);
    }
  }

  lemma {:induction false} SubsequenceTrans(a: string, b: string, c: string)
    requires IsSubsequence(a, b) && IsSubsequence(b, c)
    ensures IsSubsequence(a, c)
    decreases |c|
  {
    if |a| == 0 {
    } else if |c| == 0 {
    } else if |b| > 0 && b[0] == c[0] {
      if a[0] == b[0] {
        SubsequenceTrans(a[1..], b[1..], c[1..]);
      } else {
        SubsequenceTrans(a, b[1..], c[1..]);
        Weaken(a, c);
      }
    } else {
      SubsequenceTrans(a, b, c[1..]);
      Weaken(a, c);
    }
  }

  lemma {:induction false} SuffixSub(s: string, k: nat)
    requires k <= |s|
    ensures IsSubsequence(s[k..], s)
    decreases k
  {
    if k == 0 {
      assert s[0..] == s;
      SubsequenceRefl(s);
    } else {
      SuffixSub(s, k - 1);
      assert s[k - 1..][1..] == s[k..];
      SubsequenceRefl(s[k..]);
      Weaken(s[k..], s[k - 1..]);
      SubsequenceTrans(s[k..], s[k - 1..], s);
    }
  }

  lemma {:induction false} PrefixSub(s: string, k: nat)
    requires k <= |s|
    ensures IsSubsequence(s[..k], s)
    decreases |s|
  {
    if k == 0 {
    } else {
      PrefixSub(s[1..], k - 1);
      assert s[..k][1..] == s[1..][..k - 1];
    }
  }

  lemma SliceSub(s: string, a: nat, b: nat)
    requires a <= b <= |s|
    ensures IsSubsequence(s[a..b], s)
  {
    PrefixSub(s[a..], b - a);
    assert s[a..][..b - a] == s[a..b];
    SuffixSub(s, a);
    SubsequenceTrans(s[a..b], s[a..], s);
  }

  lemma {:induction false} SubsequenceLength(a: string, b: string)
    requires IsSubsequence(a, b)
    ensures |a| <= |b|
    ensures |a| == |b| ==> a == b
    decreases |b|
  {
    if |a| == 0 {
    } else if a[0] == b[0] {
      SubsequenceLength(a[1..], b[1..]);
      if |a| == |b| {
        assert a == [a[0]] + a[1..];
        assert b == [b[0]] + b[1..];
      }
    } else {
      SubsequenceLength(a, b[1..]);
    }
  }

  lemma {:induction false} SubsequenceChars(a: string, b: string)
    requires IsSubsequence(a, b)
    ensures forall c | c in a :: c in b
    decreases |b|
  {
    if |a| == 0 {
    } else if a[0] == b[0] {
      SubsequenceChars(a[1..], b[1..]);
      assert a == [a[0]] + a[1..];
      assert forall c | c in b[1..] :: c in b;
    } else {
      SubsequenceChars(a, b[1..]);
      assert forall c | c in b[1..] :: c in b;
    }
  }

  // ---------------------------------------------------------------------------
  // Rendering

  function DigitChar(d: nat): char
    requires d < 10
  {
    "0123456789"[d]
  }

  /** `str(n)` for a natural number. */
  function NatToString(n: nat): (r: string)
    ensures |r| > 0
    decreases n
  {
    if n < 10 then [DigitChar(n)] else NatToString(n / 10) + [DigitChar(n % 10)]
  }

  /** `str(i)` for an integer. */
  function IntToString(i: int): string {
    if i < 0 then "-" + NatToString(-i) else NatToString(i)
  }

  /** `sep.join(parts)` */
  function Join(sep: string, parts: seq<string>): string
    decreases |parts|
  {
    if |parts| == 0 then ""
    else if |parts| == 1 then parts[0]
    else parts[0] + sep + Join(sep, parts[1..])
  }
}
