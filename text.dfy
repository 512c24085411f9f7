/** The Python `str` operations the core relies on, over `seq<char>`. */
module Text {
  import opened Values

  /** `c.isspace()`: the characters Python treats as whitespace. */
  predicate IsSpace(c: char) {
    c == ' ' || ('\t' <= c <= '\r') || ('\U{1c}' <= c <= '\U{1f}') || c == '\U{85}' || c == '\U{a0}'
    || c == '\U{1680}' || ('\U{2000}' <= c <= '\U{200a}') || c == '\U{2028}' || c == '\U{2029}'
    || c == '\U{202f}' || c == '\U{205f}' || c == '\U{3000}'
  }

  predicate AllSpace(s: string) {
    forall i :: 0 <= i < |s| ==> IsSpace(s[i])
  }

  predicate NoSpace(s: string) {
    forall i :: 0 <= i < |s| ==> !IsSpace(s[i])
  }

  /** Number of leading whitespace characters. */
  function LeadingSpace(s: string): (n: nat)
    ensures n <= |s| && AllSpace(s[..n]) && (n < |s| ==> !IsSpace(s[n]))
  {
    if s == [] || !IsSpace(s[0]) then 0
    else
      var n := 1 + LeadingSpace(s[1..]);
      assert s[..n] == [s[0]] + s[1..][..n - 1];
      n
  }

  /** Length of the leading run of non-whitespace characters. */
  function LeadingWord(s: string): (n: nat)
    ensures n <= |s| && NoSpace(s[..n]) && (n < |s| ==> IsSpace(s[n]))
  {
    if s == [] || IsSpace(s[0]) then 0
    else
      var n := 1 + LeadingWord(s[1..]);
      assert s[..n] == [s[0]] + s[1..][..n - 1];
      n
  }

  /** `s.split()`: the maximal runs of non-whitespace characters, in order. */
  function Words(s: string): (r: seq<string>)
    ensures forall i :: 0 <= i < |r| ==> r[i] != [] && NoSpace(r[i])
    decreases |s|
  {
    var a := LeadingSpace(s);
    if a == |s| then []
    else
      var t := s[a..];
      assert t[0] == s[a];
      var b := LeadingWord(t);
      [t[..b]] + Words(t[b..])
  }

  /** Only a blank text has no words. */
  lemma WordsEmpty(s: string)
    ensures Words(s) == [] <==> AllSpace(s)
  {
    var a := LeadingSpace(s);
    if a == |s| {
      assert s[..a] == s;
    } else {
      assert !IsSpace(s[a]);
    }
  }

  /** `len(s.split())` */
  function WordCount(s: string): nat {
    |Words(s)|
  }

  /** Number of trailing whitespace characters. */
  function TrailingSpace(s: string): (n: nat)
    ensures n <= |s| && AllSpace(s[|s| - n..]) && (n < |s| ==> !IsSpace(s[|s| - n - 1]))
  {
    if s == [] || !IsSpace(s[|s| - 1]) then 0
    else
      var t := s[..|s| - 1];
      var k := TrailingSpace(t);
      assert s[|s| - (k + 1)..] == t[|t| - k..] + [s[|s| - 1]];
      AllSpaceAppend(t[|t| - k..], [s[|s| - 1]]);
      1 + k
  }

  lemma AllSpaceAppend(a: string, b: string)
    requires AllSpace(a) && AllSpace(b)
    ensures AllSpace(a + b)
  {
    forall i | 0 <= i < |a + b| ensures IsSpace((a + b)[i]) {
      if i < |a| { assert (a + b)[i] == a[i]; } else { assert (a + b)[i] == b[i - |a|]; }
    }
  }

  /** `s.strip()`: the slice of `s` left after removing whitespace at both ends. */
  function Strip(s: string): (r: string)
    ensures exists i, j :: 0 <= i <= j <= |s| && r == s[i..j] && AllSpace(s[..i]) && AllSpace(s[j..])
    ensures r != [] ==> !IsSpace(r[0]) && !IsSpace(r[|r| - 1])
    ensures r == [] <==> AllSpace(s)
  {
    var i := LeadingSpace(s);
    if i == |s| then
      assert s == s[..i];
      assert s[|s|..] == [];
      s[i..i]
    else
      var t := s[i..];
      var k := TrailingSpace(t);
      assert k < |t| by { assert !IsSpace(t[0]); }
      assert s[i + |t| - k..] == t[|t| - k..];
      assert !AllSpace(s) by { assert !IsSpace(s[i]); }
      s[i..i + |t| - k]
  }

  /** `s.startswith(p)` */
  predicate StartsWith(s: string, p: string) {
    p <= s
  }

  predicate OccursAt(s: string, t: string, i: int) {
    0 <= i && i + |t| <= |s| && s[i..i + |t|] == t
  }

  /** `s.find(t)`: the first position where `t` occurs. */
  function IndexOf(s: string, t: string): (r: Option<nat>)
    ensures r.Some? ==> OccursAt(s, t, r.value) && forall j :: 0 <= j < r.value ==> !OccursAt(s, t, j)
    ensures r.None? ==> forall j :: !OccursAt(s, t, j)
    decreases |s|
  {
    if |t| > |s| then None
    else if s[..|t|] == t then Some(0)
    else
      match IndexOf(s[1..], t)
      case None =>
        assert forall j :: 1 <= j ==> OccursAt(s, t, j) ==> OccursAt(s[1..], t, j - 1);
        None
      case Some(k) =>
        assert forall j :: 1 <= j ==> OccursAt(s, t, j) ==> OccursAt(s[1..], t, j - 1);
        assert s[1..][k..k + |t|] == s[k + 1..k + 1 + |t|];
        Some(k + 1)
  }

  /** `t in s` */
  predicate Contains(s: string, t: string) {
    IndexOf(s, t).Some?
  }

  /** `s.rfind(c)` for a single character. */
  function LastIndexOf(s: string, c: char): (r: Option<nat>)
    ensures r.Some? ==> r.value < |s| && s[r.value] == c && forall j :: r.value < j < |s| ==> s[j] != c
    ensures r.None? ==> forall j :: 0 <= j < |s| ==> s[j] != c
  {
    if s == [] then None
    else if s[|s| - 1] == c then Some(|s| - 1)
    else LastIndexOf(s[..|s| - 1], c)
  }

  /** `sep.join(parts)` */
  function Join(parts: seq<string>, sep: string): string {
    if parts == [] then "" else if |parts| == 1 then parts[0] else parts[0] + sep + Join(parts[1..], sep)
  }

  /** `s.split(sep)` for a non-empty separator: the pieces between occurrences. */
  function SplitOn(s: string, sep: string): (r: seq<string>)
    requires sep != []
    ensures r != []
    ensures forall i :: 0 <= i < |r| ==> !Contains(r[i], sep)
    decreases |s|
  {
    match IndexOf(s, sep)
    case None => [s]
    case Some(i) =>
      assert !Contains(s[..i], sep) by {
        forall j | OccursAt(s[..i], sep, j) ensures false { assert OccursAt(s, sep, j); }
      }
      [s[..i]] + SplitOn(s[i + |sep|..], sep)
  }

  lemma {:induction false} SplitJoin(s: string, sep: string)
    requires sep != []
    ensures Join(SplitOn(s, sep), sep) == s
    decreases |s|
  {
    match IndexOf(s, sep)
    case None =>
    case Some(i) =>
      var rest := s[i + |sep|..];
      SplitJoin(rest, sep);
      var tail := SplitOn(rest, sep);
      assert SplitOn(s, sep) == [s[..i]] + tail;
      assert s == s[..i] + sep + rest by { assert s[i..i + |sep|] == sep; }
  }

  lemma OccursAtChar(s: string, c: char, j: int)
    ensures OccursAt(s, [c], j) <==> 0 <= j < |s| && s[j] == c
  {
    if 0 <= j < |s| {
      assert s[j..j + 1] == [s[j]];
    }
  }

  lemma SplitOnNone(s: string, sep: string)
    requires sep != [] && IndexOf(s, sep).None?
    ensures SplitOn(s, sep) == [s]
  {
  }

  lemma SplitOnSome(s: string, sep: string, i: nat)
    requires sep != [] && IndexOf(s, sep) == Some(i)
    ensures i + |sep| <= |s|
    ensures var r := SplitOn(s, sep); var t := SplitOn(s[i + |sep|..], sep);
      r == [s[..i]] + t && r[|r| - 1] == t[|t| - 1]
  {
  }

  /** The last `c` of `s` at or after a known `c` at `i`. */
  lemma LastIndexAfter(s: string, c: char, i: nat)
    requires i < |s| && s[i] == c
    ensures LastIndexOf(s, c) == match LastIndexOf(s[i + 1..], c) case None => Some(i) case Some(k) => Some(i + 1 + k)
  {
    var rest := s[i + 1..];
    match LastIndexOf(rest, c)
    case None =>
    case Some(k) =>
      assert s[i + 1 + k] == c;
  }

  /** The last piece of `s.split(c)` is what follows the last `c` (all of
      `s` when there is none): `s.split(c)[-1]`. */
  lemma {:induction false} SplitOnLast(s: string, c: char)
    ensures var r := SplitOn(s, [c]);
      r[|r| - 1] == match LastIndexOf(s, c) case None => s case Some(i) => s[i + 1..]
    decreases |s|
  {
    match IndexOf(s, [c])
    case None =>
      SplitOnNone(s, [c]);
      if LastIndexOf(s, c).Some? {
        OccursAtChar(s, c, LastIndexOf(s, c).value);
      }
    case Some(i) =>
      OccursAtChar(s, c, i);
      var rest := s[i + 1..];
      SplitOnLast(rest, c);
      LastIndexAfter(s, c, i);
      SplitOnSome(s, [c], i);
      match LastIndexOf(rest, c)
      case None =>
      case Some(k) =>
        assert s[i + 1 + k + 1..] == rest[k + 1..];
  }

  /** Text before the first occurrence of `sep` (the whole text without one):
      `s.split(sep)[0]`. */
  function Before(s: string, sep: string): (r: string)
    requires sep != []
    ensures r <= s && !Contains(r, sep)
    ensures Contains(s, sep) ==> OccursAt(s, sep, |r|)
    ensures !Contains(s, sep) ==> r == s
  {
    SplitOn(s, sep)[0]
  }

  /** `c * n` for one character; zero or negative `n` gives "". */
  function Repeat(c: char, n: int): (r: string)
    ensures |r| == if n > 0 then n else 0
    ensures forall i :: 0 <= i < |r| ==> r[i] == c
    decreases n
  {
    if n <= 0 then "" else [c] + Repeat(c, n - 1)
  }

  /** Lower-casing of ASCII letters; other characters are kept. */
  function LowerChar(c: char): char {
    if 'A' <= c <= 'Z' then (c as int + 32) as char else c
  }

  function Lower(s: string): (r: string)
    ensures |r| == |s| && forall i :: 0 <= i < |s| ==> r[i] == LowerChar(s[i])
  {
    seq(|s|, i requires 0 <= i < |s| => LowerChar(s[i]))
  }

  /** `s.replace(a, b)` for single characters. */
  function ReplaceChar(s: string, a: char, b: char): (r: string)
    ensures |r| == |s|
    ensures forall i :: 0 <= i < |s| ==> r[i] == if s[i] == a then b else s[i]
  {
    seq(|s|, i requires 0 <= i < |s| => if s[i] == a then b else s[i])
  }

  /** `s.replace(pat, rep)` for a non-empty `pat`: occurrences are replaced
      from left to right without overlapping. */
  function ReplaceAll(s: string, pat: string, rep: string): (r: string)
    requires pat != []
    ensures !Contains(s, pat) ==> r == s
    decreases |s|
  {
    match IndexOf(s, pat)
    case None => s
    case Some(i) => s[..i] + rep + ReplaceAll(s[i + |pat|..], pat, rep)
  }

  /** An occurrence inside a prefix is an occurrence in the prefix. */
  lemma OccursInPrefix(r: string, s: string, t: string, k: nat)
    requires r <= s && OccursAt(s, t, k)
    ensures k + |t| <= |r| ==> OccursAt(r, t, k) && Contains(r, t)
  {
    if k + |t| <= |r| {
      assert r[k..k + |t|] == s[k..k + |t|];
      assert OccursAt(r, t, k);
    }
  }

  /** `t` cannot start inside a text free of its first character. */
  lemma NoEarlyOccurrence(b: string, t: string, k: nat)
    requires t != [] && forall j :: 0 <= j < |b| ==> b[j] != t[0]
    ensures k < |b| ==> !OccursAt(b + t, t, k)
  {
    if k < |b| && k + |t| <= |b + t| {
      assert (b + t)[k..k + |t|][0] == b[k];
    }
  }

  /** `t` sits right after `a` in `a + t + c`. */
  lemma OccursBetween(a: string, t: string, c: string)
    ensures OccursAt(a + t + c, t, |a|)
  {
    assert (a + t + c)[|a|..|a| + |t|] == t;
  }

  /** Where the four pieces `w`, `x`, `y`, `z` sit in
      `p0 + w + p1 + x + p2 + y + p3 + z + p4`. */
  lemma Interleaved(p0: string, w: string, p1: string, x: string, p2: string, y: string, p3: string, z: string, p4: string)
    ensures var s := p0 + w + p1 + x + p2 + y + p3 + z + p4;
      var i := |p0| + |w| + |p1|;
      var j := i + |x| + |p2|;
      var k := j + |y| + |p3|;
      && OccursAt(s, w, |p0|) && OccursAt(s, x, i) && OccursAt(s, y, j) && OccursAt(s, z, k)
  {
    OccursBetween(p0, w, p1 + x + p2 + y + p3 + z + p4);
    OccursBetween(p0 + w + p1, x, p2 + y + p3 + z + p4);
    OccursBetween(p0 + w + p1 + x + p2, y, p3 + z + p4);
    OccursBetween(p0 + w + p1 + x + p2 + y + p3, z, p4);
  }
}
