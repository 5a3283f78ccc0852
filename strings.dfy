/** The JavaScript string operations the core relies on, stated over `seq<char>`:
    `trim`, the `\s` character class, `includes`, `indexOf`, `replace` with a
    string pattern (first occurrence only), template concatenation, `join`,
    `split` with a non-empty separator, the `a || b` fallback on strings and
    the decimal rendering of a non-negative integer. */
module Strings {
  import opened Wrappers

  /** ECMAScript WhiteSpace and LineTerminator: the characters `\s` matches
      and `String.prototype.trim` removes. */
  predicate IsWhitespace(c: char) {
    c == '\t' || c == '\n' || c == '\U{000B}' || c == '\U{000C}' || c == '\r' || c == ' '
    || c == '\U{00A0}' || c == '\U{1680}' || ('\U{2000}' <= c <= '\U{200A}')
    || c == '\U{2028}' || c == '\U{2029}' || c == '\U{202F}' || c == '\U{205F}'
    || c == '\U{3000}' || c == '\U{FEFF}'
  }

  /** The characters a regular-expression `.` does not match. */
  predicate IsLineTerminator(c: char) {
    c == '\n' || c == '\r' || c == '\U{2028}' || c == '\U{2029}'
  }

  predicate AllWhitespace(s: string) {
    forall i | 0 <= i < |s| :: IsWhitespace(s[i])
  }

  /** Leading whitespace removed. */
  function TrimStart(s: string): (r: string)
    ensures |r| <= |s| && r == s[|s| - |r|..]
    ensures AllWhitespace(s[..|s| - |r|])
    ensures r != [] ==> !IsWhitespace(r[0])
  {
    if s != [] && IsWhitespace(s[0]) then TrimStart(s[1..]) else s
  }

  /** Trailing whitespace removed. */
  function TrimEnd(s: string): (r: string)
    ensures |r| <= |s| && r == s[..|r|]
    ensures AllWhitespace(s[|r|..])
    ensures r != [] ==> !IsWhitespace(r[|r| - 1])
  {
    if s != [] && IsWhitespace(s[|s| - 1]) then TrimEnd(s[..|s| - 1]) else s
  }

  /** `s.trim()`: the longest slice of `s` that neither starts nor ends with whitespace,
      everything cut off on either side being whitespace. */
  function Trim(s: string): (r: string)
    ensures exists i, j :: (0 <= i <= j <= |s| && r == s[i..j]
      && AllWhitespace(s[..i]) && AllWhitespace(s[j..]))
    ensures r != [] ==> !IsWhitespace(r[0]) && !IsWhitespace(r[|r| - 1])
  {
    var t := TrimStart(s);
    var r := TrimEnd(t);
    var i := |s| - |t|;
    assert r == s[i..i + |r|];
    assert s[i + |r|..] == t[|r|..];
    r
  }

  /** `s.trim() === ""` holds exactly when every character of `s` is whitespace. */
  lemma {:induction false} TrimEmptyIff(s: string)
    ensures Trim(s) == [] <==> AllWhitespace(s)
  {
    var r := Trim(s);
    var i, j :| 0 <= i <= j <= |s| && r == s[i..j] && AllWhitespace(s[..i]) && AllWhitespace(s[j..]);
    if r == [] {
      assert i == j;
      forall k | 0 <= k < |s| ensures IsWhitespace(s[k]) {
        if k < i { assert s[k] == s[..i][k]; } else { assert s[k] == s[j..][k - j]; }
      }
    } else {
      assert r[0] == s[i];
    }
  }

  /** `pat` occurs in `s` starting at index `i`. */
  predicate OccursAt(s: string, pat: string, i: int) {
    0 <= i && i + |pat| <= |s| && s[i..i + |pat|] == pat
  }

  /** `s.includes(pat)`. */
  predicate Contains(s: string, pat: string)
    ensures Contains(s, pat) ==> |pat| <= |s|
    ensures pat == [] ==> Contains(s, pat)
  {
    assert pat == [] ==> OccursAt(s, pat, 0);
    exists i | 0 <= i <= |s| - |pat| :: OccursAt(s, pat, i)
  }

  /** `s.indexOf(pat)`: the first index at which `pat` occurs, if any. */
  function IndexOf(s: string, pat: string): (r: Option<nat>)
    ensures r.Some? ==> OccursAt(s, pat, r.value)
    ensures r.Some? ==> forall j | 0 <= j < r.value :: !OccursAt(s, pat, j)
    ensures r.None? <==> !Contains(s, pat)
  {
    IndexFrom(s, pat, 0)
  }

  /** The scan behind `indexOf`: the first occurrence at `i` or later. */
  function IndexFrom(s: string, pat: string, i: nat): (r: Option<nat>)
    ensures r.Some? ==> i <= r.value && OccursAt(s, pat, r.value)
    ensures r.Some? ==> forall j | i <= j < r.value :: !OccursAt(s, pat, j)
    ensures r.None? <==> forall j | i <= j <= |s| - |pat| :: !OccursAt(s, pat, j)
    decreases |s| - i
  {
    if i + |pat| > |s| then None
    else if OccursAt(s, pat, i) then Some(i)
    else IndexFrom(s, pat, i + 1)
  }

  /** `s.replace(pat, rep)` with a string pattern: only the first occurrence is replaced. */
  function ReplaceFirst(s: string, pat: string, rep: string): (r: string)
    ensures !Contains(s, pat) ==> r == s
    ensures Contains(s, pat) ==> exists i :: (OccursAt(s, pat, i)
      && (forall j | 0 <= j < i :: !OccursAt(s, pat, j))
      && r == s[..i] + rep + s[i + |pat|..])
  {
    match IndexOf(s, pat)
    case None => s
    case Some(i) => s[..i] + rep + s[i + |pat|..]
  }

  /** The first occurrence is unique: an occurrence with none before it is what `IndexOf` finds. */
  lemma IndexOfFirst(s: string, pat: string, i: nat)
    requires OccursAt(s, pat, i)
    requires forall j | 0 <= j < i :: !OccursAt(s, pat, j)
    ensures IndexOf(s, pat) == Some(i)
  {
    ContainsWitness(s, pat, i);
  }

  /** An occurrence inside `a` with none before it is the first one in `a + b`, so
      `replace` swaps it and leaves `b` alone. */
  lemma ReplaceFirstInPrefix(a: string, b: string, pat: string, rep: string, i: nat)
    requires OccursAt(a, pat, i)
    requires forall j | 0 <= j < i :: !OccursAt(a, pat, j)
    ensures ReplaceFirst(a + b, pat, rep) == a[..i] + rep + a[i + |pat|..] + b
  {
    var s := a + b;
    assert s[i..i + |pat|] == a[i..i + |pat|];
    forall j | 0 <= j < i ensures !OccursAt(s, pat, j) {
      assert !OccursAt(a, pat, j);
      assert s[j..j + |pat|] == a[j..j + |pat|];
    }
    IndexOfFirst(s, pat, i);
    assert s[..i] == a[..i];
    assert s[i + |pat|..] == a[i + |pat|..] + b;
  }

  /** If `pat` does not occur in `a` and cannot straddle the boundary between
      `a` and `b` (it does not contain `b`'s first character), then its first
      occurrence in `a + b` is its first occurrence in `b`, shifted by `|a|`. */
  lemma {:induction false} IndexOfAfterPrefix(a: string, b: string, pat: string, k: nat)
    requires pat != [] && b != [] && b[0] !in pat
    requires !Contains(a, pat)
    requires IndexOf(b, pat) == Some(k)
    ensures IndexOf(a + b, pat) == Some(|a| + k)
  {
    AppendOccursAt(a, b, pat, k);
    NoEarlyOccurrence(a, b, pat, k);
    IndexOfFirst(a + b, pat, |a| + k);
  }

  lemma NoEarlyOccurrence(a: string, b: string, pat: string, k: nat)
    requires pat != [] && b != [] && b[0] !in pat
    requires !Contains(a, pat)
    requires forall j | 0 <= j < k :: !OccursAt(b, pat, j)
    ensures forall j | 0 <= j < |a| + k :: !OccursAt(a + b, pat, j)
  {
    forall j | 0 <= j < |a| + k ensures !OccursAt(a + b, pat, j) {
      if j < |a| {
        NoOccurrenceInPrefix(a, b, pat, j);
      } else {
        AppendOccursAt(a, b, pat, j - |a|);
      }
    }
  }

  /** A segment made of a separator and `pat` first contains `pat` right after the separator. */
  lemma SegmentIndex(sep: char, pat: string)
    requires pat != [] && sep !in pat
    ensures IndexOf([sep] + pat, pat) == Some(1)
  {
    var segment := [sep] + pat;
    assert OccursAt(segment, pat, 1) by {
      assert segment[1..1 + |pat|] == pat;
    }
    assert pat[0] != sep;
    assert !OccursAt(segment, pat, 0) by {
      if |pat| <= |segment| {
        assert segment[0..|pat|][0] == sep;
      }
    }
    IndexOfFirst(segment, pat, 1);
  }

  /** Replacing a last path segment: when neither the base nor the path before the
      segment contains the pattern, and neither the path's first character nor the
      separator occurs in it, the first occurrence is the segment itself. */
  lemma ReplaceLastSegment(base: string, path: string, sep: char, pat: string, rep: string)
    requires pat != [] && path != [] && path[0] !in pat && sep !in pat
    requires !Contains(base, pat) && !Contains(path, pat)
    ensures ReplaceFirst(base + path + [sep] + pat, pat, rep) == base + path + [sep] + rep
  {
    var head := base + path + [sep];
    var s := head + pat;
    AppendAssoc(base, path, [sep], pat);
    LastSegmentIndex(base, path, sep, pat, s, |path| + 1);
    ReplaceFirstAtEnd(s, head, pat, rep);
  }

  /** Under the same conditions, the first occurrence in `s` is the one right after
      the separator, `k` characters into the path (`k` is `|path| + 1`, named
      so that the proof stays small). */
  lemma LastSegmentIndex(base: string, path: string, sep: char, pat: string, s: string, k: nat)
    requires pat != [] && path != [] && path[0] !in pat && sep !in pat
    requires !Contains(base, pat) && !Contains(path, pat)
    requires s == base + (path + ([sep] + pat)) && k == |path| + 1
    ensures IndexOf(s, pat) == Some(|base| + k)
  {
    var segment := [sep] + pat;
    var tail := path + segment;
    assert IndexOf(tail, pat) == Some(k) by {
      SegmentIndex(sep, pat);
      IndexOfAfterPrefix(path, segment, pat, 1);
    }
    assert tail[0] == path[0];
    IndexOfAfterPrefix(base, tail, pat, k);
  }

  /** Concatenation regrouped to the left. */
  lemma AppendAssoc(a: string, b: string, c: string, d: string)
    ensures a + (b + (c + d)) == a + b + c + d
  {
  }

  /** Replacing a pattern whose first occurrence ends the string swaps that ending. */
  lemma ReplaceFirstAtEnd(s: string, a: string, pat: string, rep: string)
    requires s == a + pat && IndexOf(s, pat) == Some(|a|)
    ensures ReplaceFirst(s, pat, rep) == a + rep
  {
    assert s[..|a|] == a;
    assert s[|a| + |pat|..] == [];
  }

  lemma NoOccurrenceInPrefix(a: string, b: string, pat: string, j: nat)
    requires pat != [] && b != [] && b[0] !in pat
    requires !Contains(a, pat) && j < |a|
    ensures !OccursAt(a + b, pat, j)
  {
    var s := a + b;
    if j + |pat| <= |a| {
      assert a[j..j + |pat|] == s[j..j + |pat|];
      assert !OccursAt(a, pat, j);
    } else if j + |pat| <= |s| {
      assert s[j..j + |pat|][|a| - j] == s[|a|] == b[0];
    }
  }

  lemma AppendOccursAt(a: string, b: string, pat: string, j: nat)
    ensures OccursAt(a + b, pat, |a| + j) <==> OccursAt(b, pat, j)
  {
    if j + |pat| <= |b| {
      assert (a + b)[|a| + j..|a| + j + |pat|] == b[j..j + |pat|];
    }
  }

  /** A character absent from `s` rules out every pattern starting with it. */
  lemma NotContainsFirstChar(s: string, pat: string)
    requires pat != [] && pat[0] !in s
    ensures !Contains(s, pat)
  {
    forall i | 0 <= i <= |s| - |pat| ensures !OccursAt(s, pat, i) {
      assert s[i..i + |pat|][0] == s[i];
    }
  }

  /** A character of the pattern that is absent from `s` rules the pattern out. */
  lemma NotContainsSomeChar(s: string, pat: string, k: nat)
    requires k < |pat| && pat[k] !in s
    ensures !Contains(s, pat)
  {
    forall i | 0 <= i <= |s| - |pat| ensures !OccursAt(s, pat, i) {
      assert s[i..i + |pat|][k] == s[i + k];
    }
  }

  lemma ContainsWitness(s: string, pat: string, i: int)
    requires OccursAt(s, pat, i)
    ensures Contains(s, pat)
  {
  }

  lemma ContainsRefl(s: string)
    ensures Contains(s, s)
  {
    assert OccursAt(s, s, 0);
  }

  lemma ContainsPrefix(a: string, b: string)
    ensures Contains(a + b, a)
  {
    assert (a + b)[0..|a|] == a;
    assert OccursAt(a + b, a, 0);
  }

  lemma ContainsInfix(a: string, b: string, c: string)
    ensures Contains(a + b + c, b)
  {
    assert (a + b + c)[|a|..|a| + |b|] == b;
    assert OccursAt(a + b + c, b, |a|);
  }

  /** Containment is transitive: a pattern inside a piece is inside whatever contains the piece. */
  lemma ContainsTrans(s: string, t: string, u: string)
    requires Contains(s, t) && Contains(t, u)
    ensures Contains(s, u)
  {
    var i :| 0 <= i <= |s| - |t| && OccursAt(s, t, i);
    var j :| 0 <= j <= |t| - |u| && OccursAt(t, u, j);
    assert forall k | 0 <= k < |u| :: s[i + j + k] == t[j + k] == u[k];
    assert s[i + j..i + j + |u|] == u;
    assert OccursAt(s, u, i + j);
  }

  /** Template-literal concatenation of its pieces. */
  function Concat(parts: seq<string>): string {
    if parts == [] then [] else parts[0] + Concat(parts[1..])
  }

  /** Every piece of a concatenation occurs in it. */
  lemma {:induction false} ContainsPart(parts: seq<string>, k: nat)
    requires k < |parts|
    ensures Contains(Concat(parts), parts[k])
  {
    var rest := Concat(parts[1..]);
    if k == 0 {
      ContainsPrefix(parts[0], rest);
    } else {
      ContainsPart(parts[1..], k - 1);
      var i :| 0 <= i <= |rest| - |parts[k]| && OccursAt(rest, parts[k], i);
      assert (parts[0] + rest)[|parts[0]| + i..|parts[0]| + i + |parts[k]|] == rest[i..i + |parts[k]|];
      assert OccursAt(parts[0] + rest, parts[k], |parts[0]| + i);
    }
  }

  lemma {:induction false} ConcatStartsWith(parts: seq<string>)
    requires parts != []
    ensures |Concat(parts)| >= |parts[0]| && Concat(parts)[..|parts[0]|] == parts[0]
  {
    assert Concat(parts) == parts[0] + Concat(parts[1..]);
  }

  /** `parts.join(sep)`. */
  function Join(parts: seq<string>, sep: string): (r: string)
    ensures parts == [] ==> r == []
    ensures parts != [] ==> |parts[0]| <= |r| && r[..|parts[0]|] == parts[0]
  {
    if parts == [] then []
    else if |parts| == 1 then parts[0]
    else parts[0] + sep + Join(parts[1..], sep)
  }

  /** Every part of a join occurs in it. */
  lemma {:induction false} JoinContainsPart(parts: seq<string>, sep: string, k: nat)
    requires k < |parts|
    ensures Contains(Join(parts, sep), parts[k])
  {
    if |parts| == 1 {
      ContainsRefl(parts[0]);
    } else if k == 0 {
      assert Join(parts, sep) == parts[0] + (sep + Join(parts[1..], sep));
      ContainsPrefix(parts[0], sep + Join(parts[1..], sep));
    } else {
      var rest := Join(parts[1..], sep);
      JoinContainsPart(parts[1..], sep, k - 1);
      var i :| 0 <= i <= |rest| - |parts[k]| && OccursAt(rest, parts[k], i);
      var pre := parts[0] + sep;
      assert (pre + rest)[|pre| + i..|pre| + i + |parts[k]|] == rest[i..i + |parts[k]|];
      assert OccursAt(pre + rest, parts[k], |pre| + i);
    }
  }

  /** `s.split(sep)` for a non-empty separator: the pieces between successive
      leftmost, non-overlapping occurrences of `sep`. */
  function Split(s: string, sep: string): (r: seq<string>)
    requires sep != []
    ensures |r| >= 1
    decreases |s|
  {
    match IndexOf(s, sep)
    case None => [s]
    case Some(i) => [s[..i]] + Split(s[i + |sep|..], sep)
  }

  /** `p` followed by the separator can be split off as a whole: `sep` occurs
      neither inside `p` nor straddling `p`'s end. */
  predicate Separable(p: string, sep: string)
    requires sep != []
  {
    !Contains(p + sep[..|sep| - 1], sep)
  }

  lemma SplitStep(p: string, sep: string, rest: string)
    requires sep != [] && Separable(p, sep)
    ensures Split(p + sep + rest, sep) == [p] + Split(rest, sep)
  {
    var s := p + sep + rest;
    assert s[|p|..|p| + |sep|] == sep;
    assert OccursAt(s, sep, |p|);
    var t := p + sep[..|sep| - 1];
    forall j | 0 <= j < |p| ensures !OccursAt(s, sep, j) {
      if OccursAt(s, sep, j) {
        assert s[j..j + |sep|] == t[j..j + |sep|];
        assert OccursAt(t, sep, j);
      }
    }
    assert IndexOf(s, sep) == Some(|p|);
    assert s[..|p|] == p;
    assert s[|p| + |sep|..] == rest;
  }

  /** Splitting a join gives the parts back when every part but the last is
      separable and the last does not contain the separator. */
  lemma {:induction false} SplitJoin(parts: seq<string>, sep: string)
    requires sep != [] && parts != []
    requires forall k | 0 <= k < |parts| - 1 :: Separable(parts[k], sep)
    requires !Contains(parts[|parts| - 1], sep)
    ensures Split(Join(parts, sep), sep) == parts
  {
    if |parts| > 1 {
      SplitJoin(parts[1..], sep);
      SplitStep(parts[0], sep, Join(parts[1..], sep));
    }
  }

  /** JavaScript's `s || fallback` on an optional string: absent and empty both fall back. */
  function OrElse(s: Option<string>, fallback: string): (r: string)
    ensures s.Some? && s.value != [] ==> r == s.value
    ensures s.None? || s.value == [] ==> r == fallback
    ensures fallback != [] ==> r != []
  {
    if s.Some? && s.value != [] then s.value else fallback
  }

  function DigitChar(d: nat): (c: char)
    requires d < 10
    ensures '0' <= c <= '9'
  {
    (48 + d) as char
  }

  predicate IsDigit(c: char) {
    '0' <= c <= '9'
  }

  /** The decimal digits of a non-negative integer, as `String(n)` renders it. */
  function NatToString(n: nat): (r: string)
    ensures r != []
    ensures forall i | 0 <= i < |r| :: IsDigit(r[i])
    ensures |r| > 1 ==> r[0] != '0'
  {
    if n < 10 then [DigitChar(n)] else NatToString(n / 10) + [DigitChar(n % 10)]
  }

  /** The value of a string of decimal digits. */
  function ParseDigits(s: string): nat
    requires forall i | 0 <= i < |s| :: IsDigit(s[i])
  {
    if s == [] then 0
    else
      assert IsDigit(s[|s| - 1]);
      10 * ParseDigits(s[..|s| - 1]) + (s[|s| - 1] as int - '0' as int)
  }

  /** The decimal rendering loses nothing: it reads back as the same number. */
  lemma {:induction false} NatToStringRoundTrip(n: nat)
    ensures ParseDigits(NatToString(n)) == n
  {
    var r := NatToString(n);
    if n >= 10 {
      NatToStringRoundTrip(n / 10);
      assert r[..|r| - 1] == NatToString(n / 10);
    }
  }

  /** Two different numbers never render alike. */
  lemma NatToStringInjective(m: nat, n: nat)
    requires NatToString(m) == NatToString(n)
    ensures m == n
  {
    NatToStringRoundTrip(m);
    NatToStringRoundTrip(n);
  }
}
