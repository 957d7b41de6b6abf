/** The JavaScript string built-ins the chat client relies on: `trim`,
    `split` with a non-empty separator (and its inverse `join`), `includes`
    and `toLowerCase`. Strings are sequences of Unicode code points rather
    than UTF-16 code units; for the whitespace set, the delimiter and the
    keywords the client uses, both views give the same results. */
module Strings {
  import opened Wrappers

  // ---------------------------------------------------------------------
  // trim
  // ---------------------------------------------------------------------

  /** The code points `String.prototype.trim` strips: ECMAScript WhiteSpace
      (tab, vertical tab, form feed, ZWNBSP and the space separators of
      Unicode 15) and LineTerminator (LF, CR, LS, PS). */
  predicate IsWhitespace(c: char) {
    || c == '\t' || c == '\n' || c == '\U{000B}' || c == '\U{000C}' || c == '\r'
    || c == ' ' || c == '\U{00A0}' || c == '\U{1680}'
    || ('\U{2000}' <= c <= '\U{200A}')
    || c == '\U{2028}' || c == '\U{2029}' || c == '\U{202F}' || c == '\U{205F}'
    || c == '\U{3000}' || c == '\U{FEFF}'
  }

  predicate AllWhitespace(s: string) {
    forall i :: 0 <= i < |s| ==> IsWhitespace(s[i])
  }

  /** Neither end of `s` is whitespace. */
  predicate IsTrimmed(s: string) {
    s == [] || (!IsWhitespace(s[0]) && !IsWhitespace(s[|s| - 1]))
  }

  /** `s.trimStart()`: the suffix left after the leading whitespace. */
  function TrimStart(s: string): (r: string)
    ensures |r| <= |s| && r == s[|s| - |r|..]
    ensures AllWhitespace(s[..|s| - |r|])
    ensures r == [] || !IsWhitespace(r[0])
  {
    if |s| > 0 && IsWhitespace(s[0]) then
      var r := TrimStart(s[1..]);
      assert s[..|s| - |r|] == [s[0]] + s[1..][..|s| - 1 - |r|];
      r
    else
      s
  }

  /** `s.trimEnd()`: the prefix left before the trailing whitespace. */
  function TrimEnd(s: string): (r: string)
    ensures |r| <= |s| && r == s[..|r|]
    ensures AllWhitespace(s[|r|..])
    ensures r == [] || !IsWhitespace(r[|r| - 1])
  {
    if |s| > 0 && IsWhitespace(s[|s| - 1]) then
      var r := TrimEnd(s[..|s| - 1]);
      assert s[|r|..] == s[..|s| - 1][|r|..] + [s[|s| - 1]];
      r
    else
      s
  }

  /** `s.trim()`: leading and trailing whitespace removed. The contract
      below only says the result is trimmed; `TrimSplits` (the input is the
      result padded with whitespace) and `TrimOfPadded` (that padding is
      unique) together characterise the result exactly. */
  function Trim(s: string): (r: string)
    ensures IsTrimmed(r)
    ensures |r| <= |s|
  {
    TrimEnd(TrimStart(s))
  }

  lemma {:induction false} TrimStartSkips(w: string, x: string)
    requires AllWhitespace(w)
    requires x == [] || !IsWhitespace(x[0])
    ensures TrimStart(w + x) == x
    decreases |w|
  {
    if w != [] {
      assert (w + x)[1..] == w[1..] + x;
      TrimStartSkips(w[1..], x);
    } else {
      assert w + x == x;
    }
  }

  lemma {:induction false} TrimEndSkips(x: string, w: string)
    requires AllWhitespace(w)
    requires x == [] || !IsWhitespace(x[|x| - 1])
    ensures TrimEnd(x + w) == x
    decreases |w|
  {
    if w != [] {
      assert (x + w)[..|x + w| - 1] == x + w[..|w| - 1];
      TrimEndSkips(x, w[..|w| - 1]);
    } else {
      assert x + w == x;
    }
  }

  /** Uniqueness half of the characterisation of `trim`: whitespace around
      a trimmed string is exactly what `trim` removes. */
  lemma TrimOfPadded(lead: string, t: string, trail: string)
    requires AllWhitespace(lead) && AllWhitespace(trail)
    requires IsTrimmed(t)
    ensures Trim(lead + t + trail) == t
  {
    if t == [] {
      assert lead + t + trail == (lead + trail) + [];
      TrimStartSkips(lead + trail, []);
    } else {
      assert lead + t + trail == lead + (t + trail);
      TrimStartSkips(lead, t + trail);
      TrimEndSkips(t, trail);
    }
  }

  /** Existence half of the characterisation of `trim`: every string is its
      trimmed form padded with whitespace on both sides. */
  lemma TrimSplits(s: string) returns (lead: string, trail: string)
    ensures AllWhitespace(lead) && AllWhitespace(trail)
    ensures s == lead + Trim(s) + trail
  {
    var front := TrimStart(s);
    var t := TrimEnd(front);
    lead := s[..|s| - |front|];
    trail := front[|t|..];
    Regroup(s, |s| - |front|, front, |t|);
  }

  /** Cutting `s` before its suffix `front`, and `front` at `k`, gives three
      pieces that rejoin to `s`. */
  lemma Regroup(s: string, n: nat, front: string, k: nat)
    requires n <= |s| && front == s[n..] && k <= |front|
    ensures s == s[..n] + front[..k] + front[k..]
  {
    assert front == front[..k] + front[k..];
    assert s == s[..n] + s[n..];
  }

  /** A trimmed string is its own `trim`. */
  lemma TrimmedIsFixed(t: string)
    requires IsTrimmed(t)
    ensures Trim(t) == t
  {
    assert [] + t + [] == t;
    TrimOfPadded([], t, []);
  }

  /** `trim` is idempotent. */
  lemma TrimIdempotent(s: string)
    ensures Trim(Trim(s)) == Trim(s)
  {
    assert [] + Trim(s) + [] == Trim(s);
    TrimOfPadded([], Trim(s), []);
  }

  // ---------------------------------------------------------------------
  // includes, indexOf
  // ---------------------------------------------------------------------

  /** `pat` occurs in `s` starting at position `i`. */
  predicate OccursAt(s: string, pat: string, i: nat) {
    i + |pat| <= |s| && s[i..i + |pat|] == pat
  }

  /** `s.includes(pat)`. */
  predicate Contains(s: string, pat: string) {
    exists i: nat | i <= |s| :: OccursAt(s, pat, i)
  }

  /** The first position at or after `from` where `pat` occurs in `s`
      (JavaScript's `indexOf`, with -1 as `None`). */
  function FirstOccurrence(s: string, pat: string, from: nat): (r: Option<nat>)
    ensures r.Some? ==> from <= r.value && OccursAt(s, pat, r.value)
    ensures r.Some? ==> forall j: nat :: from <= j < r.value ==> !OccursAt(s, pat, j)
    ensures r.None? ==> forall j: nat :: from <= j ==> !OccursAt(s, pat, j)
    decreases |s| - from
  {
    if from + |pat| > |s| then None
    else if s[from..from + |pat|] == pat then Some(from)
    else FirstOccurrence(s, pat, from + 1)
  }

  /** Occurrences survive appending text. */
  lemma OccursInExtension(s: string, q: string, pat: string, j: nat)
    requires OccursAt(s, pat, j)
    ensures OccursAt(s + q, pat, j)
  {
    assert (s + q)[..|s|] == s;
    assert (s + q)[j..j + |pat|] == s[j..j + |pat|];
  }

  /** Trimming cannot create an occurrence. */
  lemma TrimKeepsAbsence(s: string, pat: string)
    requires !Contains(s, pat)
    ensures !Contains(Trim(s), pat)
  {
    if Contains(Trim(s), pat) {
      ContainsTrimmed(s, pat);
    }
  }

  lemma ContainsTrimmed(s: string, pat: string)
    requires Contains(Trim(s), pat)
    ensures Contains(s, pat)
  {
    var lead, trail := TrimSplits(s);
    var t := Trim(s);
    var i: nat :| OccursAt(t, pat, i);
    OccursInMiddle(lead, t, trail, pat, i);
  }

  /** An occurrence inside `b` is an occurrence inside `a + b + c`. */
  lemma OccursInMiddle(a: string, b: string, c: string, pat: string, i: nat)
    requires OccursAt(b, pat, i)
    ensures OccursAt(a + b + c, pat, |a| + i)
  {
    assert (a + b + c)[|a| + i..|a| + i + |pat|] == b[i..i + |pat|];
  }

  // ---------------------------------------------------------------------
  // split, join
  // ---------------------------------------------------------------------

  /** `parts.join(sep)`. */
  function Join(parts: seq<string>, sep: string): string
  {
    if |parts| == 0 then ""
    else if |parts| == 1 then parts[0]
    else parts[0] + sep + Join(parts[1..], sep)
  }

  /** `s.split(sep)` for a non-empty separator: the pieces between
      successive non-overlapping occurrences of `sep`, scanning left to right. */
  function Split(s: string, sep: string): (parts: seq<string>)
    requires |sep| > 0
    ensures |parts| >= 1
    ensures forall k :: 0 <= k < |parts| ==> !Contains(parts[k], sep)
    ensures |parts| == 1 <==> !Contains(s, sep)
    ensures !Contains(s, sep) ==> parts == [s]
    ensures Join(parts, sep) == s
    decreases |s|
  {
    match FirstOccurrence(s, sep, 0)
    case None => [s]
    case Some(i) =>
      SplitAtFirst(s, sep, i);
      [s[..i]] + Split(s[i + |sep|..], sep)
  }

  /** What cutting `s` at its first occurrence of `sep` leaves on either side. */
  lemma SplitAtFirst(s: string, sep: string, i: nat)
    requires |sep| > 0
    requires FirstOccurrence(s, sep, 0) == Some(i)
    ensures !Contains(s[..i], sep)
    ensures s == s[..i] + sep + s[i + |sep|..]
  {
    AbsentInPrefix(s, sep, i);
    Regroup(s, i, s[i..], |sep|);
    assert s[i..][..|sep|] == sep;
    assert s[i..][|sep|..] == s[i + |sep|..];
  }

  /** A prefix ending where the first occurrence starts does not contain
      the pattern. */
  lemma AbsentInPrefix(s: string, pat: string, n: nat)
    requires |pat| > 0 && n <= |s|
    requires forall j: nat :: j < n ==> !OccursAt(s, pat, j)
    ensures !Contains(s[..n], pat)
  {
    forall j: nat | j <= n
      ensures !OccursAt(s[..n], pat, j)
    {
      if j + |pat| <= n {
        assert j < n && !OccursAt(s, pat, j);
        assert s[..n][j..j + |pat|] == s[j..j + |pat|];
      }
    }
  }

  /** An occurrence with none before it is what `FirstOccurrence` finds. */
  lemma FirstOccurrenceIs(s: string, pat: string, i: nat)
    requires OccursAt(s, pat, i)
    requires forall j: nat :: j < i ==> !OccursAt(s, pat, j)
    ensures FirstOccurrence(s, pat, 0) == Some(i)
  {
  }

  /** No proper suffix of `sep` is also a prefix of it, so two occurrences
      of `sep` can never overlap. */
  predicate SelfOverlapFree(sep: string) {
    forall k :: 0 < k < |sep| ==> sep[k..] != sep[..|sep| - k]
  }

  /** For an overlap-free separator, a piece that does not contain it is
      exactly the first piece that `split` returns. */
  lemma SplitAfterFirst(t: string, sep: string, u: string)
    requires |sep| > 0 && SelfOverlapFree(sep)
    requires !Contains(t, sep)
    ensures Split(t + sep + u, sep) == [t] + Split(u, sep)
  {
    var s := t + sep + u;
    assert s[..|t|] == t;
    assert s[|t| + |sep|..] == u;
    assert OccursAt(s, sep, |t|) by {
      assert s[|t|..|t| + |sep|] == sep;
    }
    forall j: nat | j < |t|
      ensures !OccursAt(s, sep, j)
    {
      if j + |sep| <= |t| {
        assert s[j..j + |sep|] == t[j..j + |sep|];
        assert !OccursAt(t, sep, j);
      } else if j + |sep| <= |s| {
        var k := |t| - j;
        assert s[j..j + |sep|][k..] == sep[..|sep| - k];
        assert sep[k..] != sep[..|sep| - k];
      }
    }
    assert FirstOccurrence(s, sep, 0) == Some(|t|);
  }

  /** `split` inverts `join` for an overlap-free separator and pieces
      that do not contain it. */
  lemma {:induction false} SplitJoin(parts: seq<string>, sep: string)
    requires |sep| > 0 && SelfOverlapFree(sep)
    requires |parts| >= 1
    requires forall k :: 0 <= k < |parts| ==> !Contains(parts[k], sep)
    ensures Split(Join(parts, sep), sep) == parts
    decreases |parts|
  {
    if |parts| == 1 {
      assert Join(parts, sep) == parts[0];
    } else {
      SplitJoin(parts[1..], sep);
      SplitAfterFirst(parts[0], sep, Join(parts[1..], sep));
      assert parts == [parts[0]] + parts[1..];
    }
  }

  /** Once `sep` has occurred, appending text does not move the first
      occurrence: the first piece of `split` is fixed from then on. */
  lemma SplitFirstPieceStable(s: string, q: string, sep: string)
    requires |sep| > 0
    requires Contains(s, sep)
    ensures Split(s + q, sep)[0] == Split(s, sep)[0]
  {
    var i := FirstOccurrence(s, sep, 0).value;
    OccursInExtension(s, q, sep, i);
    forall j: nat | j < i
      ensures !OccursAt(s + q, sep, j)
    {
      assert !OccursAt(s, sep, j);
      assert (s + q)[j..j + |sep|] == s[j..j + |sep|];
    }
    FirstOccurrenceIs(s + q, sep, i);
    SplitHead(s, sep, i);
    SplitHead(s + q, sep, i);
    assert (s + q)[..i] == s[..i];
  }

  /** The first piece of `split` is the text before the first occurrence. */
  lemma SplitHead(s: string, sep: string, i: nat)
    requires |sep| > 0
    requires FirstOccurrence(s, sep, 0) == Some(i)
    ensures Split(s, sep)[0] == s[..i]
  {
  }

  // ---------------------------------------------------------------------
  // toLowerCase, case-insensitive includes
  // ---------------------------------------------------------------------

  /** ASCII lower-casing; every other code point is left unchanged. */
  function LowerChar(c: char): char {
    if 'A' <= c <= 'Z' then (c as int + 32) as char else c
  }

  /** `s.toLowerCase()`, restricted to ASCII letters. */
  function ToLower(s: string): (r: string)
    ensures |r| == |s|
    ensures forall i :: 0 <= i < |s| ==> r[i] == LowerChar(s[i])
  {
    seq(|s|, i requires 0 <= i < |s| => LowerChar(s[i]))
  }

  /** `word` matches `s` at position `i` when letter case is ignored. */
  predicate MatchesIgnoringCase(s: string, word: string, i: nat) {
    i + |word| <= |s| && forall k :: 0 <= k < |word| ==> LowerChar(s[i + k]) == word[k]
  }

  predicate ContainsIgnoringCase(s: string, word: string) {
    exists i: nat | i <= |s| :: MatchesIgnoringCase(s, word, i)
  }

  /** Searching the lower-cased text for a word is a case-insensitive search. */
  lemma LowerContains(s: string, word: string)
    ensures Contains(ToLower(s), word) <==> ContainsIgnoringCase(s, word)
  {
    var lower := ToLower(s);
    if Contains(lower, word) {
      var i: nat :| i <= |lower| && OccursAt(lower, word, i);
      forall k | 0 <= k < |word|
        ensures LowerChar(s[i + k]) == word[k]
      {
        assert lower[i..i + |word|][k] == lower[i + k];
      }
      assert MatchesIgnoringCase(s, word, i);
    }
    if ContainsIgnoringCase(s, word) {
      var i: nat :| i <= |s| && MatchesIgnoringCase(s, word, i);
      assert lower[i..i + |word|] == word by {
        forall k | 0 <= k < |word|
          ensures lower[i..i + |word|][k] == word[k]
        {
          assert lower[i..i + |word|][k] == lower[i + k];
        }
      }
      assert OccursAt(lower, word, i);
    }
  }
}
