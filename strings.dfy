/**
 * The string operations the api-catalog source performs with JavaScript
 * built-ins: the regular-expression replacements `/\/+$/` and `/^\/+/`,
 * `String.prototype.trim`, `String.prototype.replace` with a string pattern,
 * and `Array.prototype.join`.
 */
module Strings {

  predicate IsSlash(c: char) {
    c == '/'
  }

  /**
   * The code points `String.prototype.trim` removes: ECMAScript WhiteSpace
   * (tab, vertical tab, form feed, space, no-break space, the byte order mark
   * and the Unicode category Zs) and LineTerminator (LF, CR, LS, PS).
   */
  predicate IsJsWhitespace(c: char) {
    || c == '\t' || c == '\n' || c == '\U{000B}' || c == '\U{000C}' || c == '\r'
    || c == ' ' || c == '\U{00A0}' || c == '\U{1680}'
    || ('\U{2000}' <= c <= '\U{200A}')
    || c == '\U{2028}' || c == '\U{2029}' || c == '\U{202F}' || c == '\U{205F}'
    || c == '\U{3000}' || c == '\U{FEFF}'
  }

  /** Removes the longest suffix made only of characters `drop` accepts. */
  function TrimEnd(s: string, drop: char -> bool): (r: string)
    ensures r <= s
    ensures forall i | |r| <= i < |s| :: drop(s[i])
    ensures r == [] || !drop(r[|r| - 1])
    decreases |s|
  {
    if s != [] && drop(s[|s| - 1]) then TrimEnd(s[..|s| - 1], drop) else s
  }

  lemma TrimEndStops(s: string, drop: char -> bool)
    requires s != [] && !drop(s[|s| - 1])
    ensures TrimEnd(s, drop) == s
  {
  }

  lemma TrimEndDrops(s: string, drop: char -> bool)
    requires s != [] && drop(s[|s| - 1])
    ensures TrimEnd(s, drop) == TrimEnd(s[..|s| - 1], drop)
  {
  }

  lemma TrimStartStops(s: string, drop: char -> bool)
    requires s != [] && !drop(s[0])
    ensures TrimStart(s, drop) == s
  {
  }

  /** Removes the longest prefix made only of characters `drop` accepts. */
  function TrimStart(s: string, drop: char -> bool): (r: string)
    ensures |r| <= |s| && r == s[|s| - |r|..]
    ensures forall i | 0 <= i < |s| - |r| :: drop(s[i])
    ensures r == [] || !drop(r[0])
    decreases |s|
  {
    if s != [] && drop(s[0]) then TrimStart(s[1..], drop) else s
  }

  /** `s.replace(/\/+$/, '')`: every trailing slash removed. */
  function TrimTrailingSlashes(s: string): (r: string)
    ensures r <= s
    ensures forall i | |r| <= i < |s| :: s[i] == '/'
    ensures r == [] || r[|r| - 1] != '/'
  {
    TrimEnd(s, IsSlash)
  }

  /** A string that does not end in a slash loses nothing. */
  lemma TrimTrailingOfClean(s: string)
    requires s == [] || s[|s| - 1] != '/'
    ensures TrimTrailingSlashes(s) == s
  {
  }

  lemma LastOfAppend(a: string, b: string)
    requires b != []
    ensures (a + b)[|a + b| - 1] == b[|b| - 1]
  {
  }

  /** `s.replace(/^\/+/, '')`: every leading slash removed. */
  function TrimLeadingSlashes(s: string): (r: string)
    ensures |r| <= |s| && r == s[|s| - |r|..]
    ensures forall i | 0 <= i < |s| - |r| :: s[i] == '/'
    ensures r == [] || r[0] != '/'
  {
    TrimStart(s, IsSlash)
  }

  /**
   * `r` is `s` with characters `drop` accepts removed from its two ends only:
   * a slice of `s` with nothing but such characters before and after it.
   */
  predicate TrimmedFrom(r: string, s: string, drop: char -> bool) {
    exists k, m | 0 <= k <= m <= |s| ::
      && r == s[k..m]
      && (forall i | 0 <= i < k :: drop(s[i]))
      && (forall i | m <= i < |s| :: drop(s[i]))
  }

  /** `s.replace(/^\/+/, '').replace(/\/+$/, '')`: a path segment without slashes at either end. */
  function TrimSlashes(s: string): (r: string)
    ensures TrimmedFrom(r, s, IsSlash)
    ensures r == [] || (r[0] != '/' && r[|r| - 1] != '/')
    ensures s == [] || (s[0] != '/' && s[|s| - 1] != '/') ==> r == s
  {
    var t := TrimLeadingSlashes(s);
    var r := TrimTrailingSlashes(t);
    TrimmedFromEnds(s, t, r, |s| - |t|, IsSlash);
    r
  }

  /** `s.trim()`. */
  function JsTrim(s: string): (r: string)
    ensures TrimmedFrom(r, s, IsJsWhitespace)
    ensures r == [] || (!IsJsWhitespace(r[0]) && !IsJsWhitespace(r[|r| - 1]))
    ensures s == [] || (!IsJsWhitespace(s[0]) && !IsJsWhitespace(s[|s| - 1])) ==> r == s
  {
    TrimBoth(s, IsJsWhitespace)
  }

  /** Removes the characters `drop` accepts from both ends of `s`. */
  function TrimBoth(s: string, drop: char -> bool): (r: string)
    ensures TrimmedFrom(r, s, drop)
    ensures r == [] || (!drop(r[0]) && !drop(r[|r| - 1]))
    ensures s == [] || (!drop(s[0]) && !drop(s[|s| - 1])) ==> r == s
  {
    var t := TrimStart(s, drop);
    var r := TrimEnd(t, drop);
    TrimmedFromEnds(s, t, r, |s| - |t|, drop);
    KeptEnds(t, r, drop);
    TrimBothStops(s, drop);
    r
  }

  /** A prefix of a string that starts and ends with kept characters does too. */
  lemma KeptEnds(t: string, r: string, drop: char -> bool)
    requires t == [] || !drop(t[0])
    requires r <= t
    requires r == [] || !drop(r[|r| - 1])
    ensures r == [] || (!drop(r[0]) && !drop(r[|r| - 1]))
  {
    assert r == [] || r[0] == t[0];
  }

  /** Nothing is trimmed from a string whose two ends are kept characters. */
  lemma TrimBothStops(s: string, drop: char -> bool)
    ensures s == [] || (!drop(s[0]) && !drop(s[|s| - 1])) ==> TrimEnd(TrimStart(s, drop), drop) == s
  {
    if s != [] && !drop(s[0]) && !drop(s[|s| - 1]) {
      TrimStartStops(s, drop);
      TrimEndStops(s, drop);
    }
  }

  /** Dropping a prefix and then a suffix of dropped characters leaves a trimmed slice. */
  lemma TrimmedFromEnds(s: string, t: string, r: string, k: nat, drop: char -> bool)
    requires k <= |s| && t == s[k..] && r <= t
    requires forall i | 0 <= i < k :: drop(s[i])
    requires forall i | |r| <= i < |t| :: drop(t[i])
    ensures TrimmedFrom(r, s, drop)
  {
    PrefixOfSuffix(s, t, r, k);
    DroppedAfterPrefix(s, t, r, k, drop);
    assert r == s[k..k + |r|];
  }

  lemma PrefixOfSuffix(s: string, t: string, r: string, k: nat)
    requires k <= |s| && t == s[k..] && r <= t
    ensures r == s[k..k + |r|]
  {
    assert forall i | 0 <= i < |r| :: r[i] == t[i] == s[k + i];
  }

  lemma DroppedAfterPrefix(s: string, t: string, r: string, k: nat, drop: char -> bool)
    requires k <= |s| && t == s[k..] && r <= t
    requires forall i | |r| <= i < |t| :: drop(t[i])
    ensures forall i | k + |r| <= i < |s| :: drop(s[i])
  {
    forall i | k + |r| <= i < |s|
      ensures drop(s[i])
    {
      assert s[i] == t[i - k];
    }
  }

  /** `parts.join(sep)`. */
  function Join(parts: seq<string>, sep: string): string
    decreases |parts|
  {
    if |parts| == 0 then ""
    else if |parts| == 1 then parts[0]
    else Join(parts[..|parts| - 1], sep) + (sep + parts[|parts| - 1])
  }

  /** The position of the first `c` in `s`. */
  function FirstIndex(s: string, c: char): (k: nat)
    requires c in s
    ensures k < |s| && s[k] == c && c !in s[..k]
  {
    if s[0] == c then 0 else 1 + FirstIndex(s[1..], c)
  }

  lemma ConcatAssoc(a: string, b: string, c: string)
    ensures (a + b) + c == a + (b + c)
  {
  }

  /** Between the same head and tail, equal strings have equal middles. */
  lemma MiddleIsDetermined(head: string, x: string, y: string, tail: string)
    requires head + x + tail == head + y + tail
    ensures x == y
  {
    assert |x| == |y|;
    assert x == (head + x + tail)[|head|..|head| + |x|];
    assert y == (head + y + tail)[|head|..|head| + |y|];
  }

  lemma AppendEmpty(s: string)
    ensures s + "" == s
  {
  }

  lemma JoinAppend(parts: seq<string>, part: string, sep: string)
    requires parts != []
    ensures Join(parts + [part], sep) == Join(parts, sep) + (sep + part)
  {
    assert (parts + [part])[..|parts|] == parts;
  }

  /** `s.replace(c, '')` with a one-character string pattern: only the first occurrence goes. */
  function RemoveFirst(s: string, c: char): (r: string)
    ensures c !in s ==> r == s
    ensures c in s ==> r == s[..FirstIndex(s, c)] + s[FirstIndex(s, c) + 1..]
  {
    if s == [] then s
    else if s[0] == c then s[1..]
    else
      var rest := RemoveFirst(s[1..], c);
      RemoveAfterHead(s, c, rest);
      [s[0]] + rest
  }

  /** Removing the first `c` from the tail, behind a head that is not `c`, removes it from `s`. */
  lemma RemoveAfterHead(s: string, c: char, rest: string)
    requires s != [] && s[0] != c
    requires c in s[1..] ==> rest == s[1..][..FirstIndex(s[1..], c)] + s[1..][FirstIndex(s[1..], c) + 1..]
    ensures c in s ==> [s[0]] + rest == s[..FirstIndex(s, c)] + s[FirstIndex(s, c) + 1..]
  {
    if c in s {
      assert c in s[1..];
      var j := FirstIndex(s[1..], c);
      assert FirstIndex(s, c) == j + 1;
      assert s[..j + 1] == [s[0]] + s[1..][..j];
      assert s[j + 2..] == s[1..][j + 1..];
    }
  }
}
