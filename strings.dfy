/** The JavaScript string operations the servers rely on: `indexOf`, `split`,
    `join`, `trim`, `endsWith`, `replace` with a string pattern, and the
    decimal rendering of a count in a template literal. */
module Strings {

  /** `p` occurs in `s` starting at index `i`. */
  predicate OccursAt(s: string, p: string, i: int) {
    0 <= i && i + |p| <= |s| && s[i..i + |p|] == p
  }

  /** `s.indexOf(p, from)`: the first index at or after `from` where `p`
      occurs, or -1 when there is none. */
  function IndexOf(s: string, p: string, from: nat): (r: int)
    ensures r == -1 || (from <= r && OccursAt(s, p, r))
    ensures forall j :: from <= j && (r == -1 || j < r) ==> !OccursAt(s, p, j)
    decreases |s| - from
  {
    if from + |p| > |s| then -1
    else if p != [] && s[from] != p[0] then IndexOf(s, p, from + 1)
    else if s[from..from + |p|] == p then from
    else IndexOf(s, p, from + 1)
  }

  /** `s.includes(p)`. */
  predicate Contains(s: string, p: string) {
    IndexOf(s, p, 0) != -1
  }

  /** Pinning down `indexOf` from an occurrence with none before it. */
  lemma IndexOfIs(s: string, p: string, from: nat, k: int)
    requires from <= k && OccursAt(s, p, k)
    requires forall j :: from <= j < k ==> !OccursAt(s, p, j)
    ensures IndexOf(s, p, from) == k
  {
  }

  /** A slice of `s` holds no occurrence of `p` when `s` has none that fits
      inside the slice's bounds. */
  lemma NoOccurrenceInSlice(s: string, p: string, lo: nat, hi: nat)
    requires lo <= hi <= |s|
    requires forall j :: lo <= j && j + |p| <= hi ==> !OccursAt(s, p, j)
    ensures !Contains(s[lo..hi], p)
  {
    var t := s[lo..hi];
    forall j | 0 <= j && j + |p| <= |t|
      ensures !OccursAt(t, p, j)
    {
      var a, b := t[j..j + |p|], s[lo + j..lo + j + |p|];
      forall m | 0 <= m < |p|
        ensures a[m] == b[m]
      {
        assert a[m] == t[j + m] == s[lo + j + m] == b[m];
      }
      assert a == b;
      assert !OccursAt(s, p, lo + j);
    }
  }

  /** `s.split(sep)` for a non-empty separator. */
  function Split(s: string, sep: string): (parts: seq<string>)
    requires sep != ""
    ensures |parts| >= 1
    decreases |s|
  {
    var i := IndexOf(s, sep, 0);
    if i == -1 then [s]
    else [s[..i]] + Split(s[i + |sep|..], sep)
  }

  /** `parts.join(sep)`. */
  function JoinWith(parts: seq<string>, sep: string): string
  {
    if |parts| == 0 then ""
    else if |parts| == 1 then parts[0]
    else parts[0] + sep + JoinWith(parts[1..], sep)
  }

  /** Joining the pieces of a split with the same separator gives back the
      original string. */
  lemma {:induction false} JoinSplit(s: string, sep: string)
    requires sep != ""
    ensures JoinWith(Split(s, sep), sep) == s
    decreases |s|
  {
    var i := IndexOf(s, sep, 0);
    if i != -1 {
      var rest := s[i + |sep|..];
      var tail := Split(rest, sep);
      assert Split(s, sep) == [s[..i]] + tail;
      assert ([s[..i]] + tail)[1..] == tail;
      JoinSplit(rest, sep);
      assert s == s[..i] + s[i..i + |sep|] + rest;
    }
  }

  /** No piece of a split holds the separator; with `JoinSplit` this pins
      the pieces down. */
  lemma {:induction false} SplitPiecesFree(s: string, sep: string)
    requires sep != ""
    ensures forall k :: 0 <= k < |Split(s, sep)| ==> !Contains(Split(s, sep)[k], sep)
    decreases |s|
  {
    var i := IndexOf(s, sep, 0);
    if i != -1 {
      var rest := s[i + |sep|..];
      var tail := Split(rest, sep);
      assert Split(s, sep) == [s[..i]] + tail;
      NoOccurrenceInSlice(s, sep, 0, i);
      assert s[0..i] == s[..i];
      SplitPiecesFree(rest, sep);
      forall k | 0 <= k < |Split(s, sep)| ensures !Contains(Split(s, sep)[k], sep) {
        if k > 0 {
          assert Split(s, sep)[k] == tail[k - 1];
        }
      }
    }
  }

  /** The first piece of a split is the text before the first separator,
      and the remaining pieces joined back are the text after it. */
  lemma {:induction false} SplitFirst(s: string, sep: string)
    requires sep != ""
    ensures var i := IndexOf(s, sep, 0);
            && Split(s, sep)[0] == (if i == -1 then s else s[..i])
            && JoinWith(Split(s, sep)[1..], sep) == (if i == -1 then "" else s[i + |sep|..])
  {
    var i := IndexOf(s, sep, 0);
    if i != -1 {
      var tail := Split(s[i + |sep|..], sep);
      assert Split(s, sep)[1..] == tail;
      JoinSplit(s[i + |sep|..], sep);
    }
  }

  /** White space and line terminators as `String.prototype.trim` removes them. */
  predicate IsSpace(c: char) {
    var n := c as int;
    n == 0x09 || n == 0x0A || n == 0x0B || n == 0x0C || n == 0x0D || n == 0x20
    || n == 0xA0 || n == 0x1680 || (0x2000 <= n <= 0x200A) || n == 0x2028
    || n == 0x2029 || n == 0x202F || n == 0x205F || n == 0x3000 || n == 0xFEFF
  }

  /** The index of the first character that is not white space, or |s|. */
  function FirstNonSpace(s: string): (lo: nat)
    ensures lo <= |s|
    ensures forall k :: 0 <= k < lo ==> IsSpace(s[k])
    ensures lo < |s| ==> !IsSpace(s[lo])
  {
    if s == [] || !IsSpace(s[0]) then 0 else 1 + FirstNonSpace(s[1..])
  }

  /** One past the last character that is not white space, or 0. */
  function EndNonSpace(s: string): (hi: nat)
    ensures hi <= |s|
    ensures forall k :: hi <= k < |s| ==> IsSpace(s[k])
    ensures hi > 0 ==> !IsSpace(s[hi - 1])
  {
    if s == [] || !IsSpace(s[|s| - 1]) then |s| else EndNonSpace(s[..|s| - 1])
  }

  /** `s.trim()`: the text between the leading and the trailing white space. */
  function Trim(s: string): (r: string)
    ensures r == "" || (!IsSpace(r[0]) && !IsSpace(r[|r| - 1]))
    ensures r == "" <==> forall k :: 0 <= k < |s| ==> IsSpace(s[k])
  {
    var lo, hi := FirstNonSpace(s), EndNonSpace(s);
    if hi <= lo then "" else s[lo..hi]
  }

  /** Trimming a string that starts with a marker whose first and last
      characters are not white space keeps the whole marker at the front. */
  lemma TrimKeepsPrefix(s: string, m: string)
    requires 0 < |m| <= |s| && s[..|m|] == m
    requires !IsSpace(m[0]) && !IsSpace(m[|m| - 1])
    ensures |m| <= |Trim(s)| && Trim(s)[..|m|] == m
  {
    assert s[0] == m[0] && s[|m| - 1] == m[|m| - 1];
    assert FirstNonSpace(s) == 0;
    assert |m| <= EndNonSpace(s);
  }

  /** Trimming cannot create an occurrence. */
  lemma TrimNoOccurrence(s: string, p: string)
    requires !Contains(s, p)
    ensures !Contains(Trim(s), p)
  {
    var lo, hi := FirstNonSpace(s), EndNonSpace(s);
    if lo < hi {
      forall j | lo <= j && j + |p| <= hi
        ensures !OccursAt(s, p, j)
      {
      }
      NoOccurrenceInSlice(s, p, lo, hi);
    }
  }

  /** `s.endsWith(suffix)`. */
  predicate EndsWith(s: string, suffix: string) {
    |suffix| <= |s| && s[|s| - |suffix|..] == suffix
  }

  /** `s.replace(pat, rep)` with a string pattern: only the first occurrence
      is replaced. */
  function ReplaceFirst(s: string, pat: string, rep: string): string
  {
    var i := IndexOf(s, pat, 0);
    if i == -1 then s else s[..i] + rep + s[i + |pat|..]
  }

  /** When the pattern's first character does not occur before it, the
      replacement happens exactly where the pattern was appended. */
  lemma ReplaceFirstAt(a: string, pat: string, rep: string, b: string)
    requires pat != "" && pat[0] !in a
    ensures ReplaceFirst(a + pat + b, pat, rep) == a + rep + b
  {
    var s := a + pat + b;
    assert s[|a|..|a| + |pat|] == pat;
    forall j | 0 <= j < |a|
      ensures !OccursAt(s, pat, j)
    {
      assert s[j] == a[j];
    }
    IndexOfIs(s, pat, 0, |a|);
    assert s[..|a|] == a && s[|a| + |pat|..] == b;
  }

  /** When the pattern's first character does not occur where the pattern
      could still fit, nothing is replaced. */
  lemma ReplaceFirstAbsent(s: string, pat: string, rep: string)
    requires pat != "" && |pat| <= |s| && pat[0] !in s[..|s| - |pat| + 1]
    ensures ReplaceFirst(s, pat, rep) == s
  {
    forall j | 0 <= j
      ensures !OccursAt(s, pat, j)
    {
      if j <= |s| - |pat| {
        assert s[j] == s[..|s| - |pat| + 1][j];
      }
    }
  }

  /** A common prefix does not make two different strings equal. */
  lemma PrefixedDistinct(a: string, x: string, y: string)
    requires x != y
    ensures a + x != a + y
  {
    assert (a + x)[|a|..] == x && (a + y)[|a|..] == y;
  }

  /** The decimal digit for `d`. */
  function Digit(d: nat): (c: char)
    requires d < 10
    ensures '0' <= c <= '9'
    ensures DigitValue(c) == d
  {
    ('0' as int + d) as char
  }

  /** The value of a decimal digit. */
  function DigitValue(c: char): nat
  {
    if '0' <= c <= '9' then (c as int - '0' as int) else 0
  }

  /** A count rendered in a template literal: decimal, no leading zeros. */
  function NatToString(n: nat): (r: string)
    ensures |r| >= 1
    ensures forall k :: 0 <= k < |r| ==> '0' <= r[k] <= '9'
    ensures |r| > 1 ==> r[0] != '0'
  {
    if n < 10 then [Digit(n)] else NatToString(n / 10) + [Digit(n % 10)]
  }

  /** The number a string of decimal digits denotes. */
  function DecimalValue(s: string): nat
  {
    if s == [] then 0 else 10 * DecimalValue(s[..|s| - 1]) + DigitValue(s[|s| - 1])
  }

  /** Reading the rendered count back gives the count. */
  lemma {:induction false} DecimalRoundTrip(n: nat)
    ensures DecimalValue(NatToString(n)) == n
  {
    var s := NatToString(n);
    if n < 10 {
      assert s[..|s| - 1] == [];
    } else {
      assert s == NatToString(n / 10) + [Digit(n % 10)];
      assert s[..|s| - 1] == NatToString(n / 10);
      assert s[|s| - 1] == Digit(n % 10);
      DecimalRoundTrip(n / 10);
    }
  }
}
