/**
 * String helpers the TypeScript, Go and Python sources lean on: ASCII
 * character classes, case mapping, `startsWith`/`includes`, `trim`/`strip`,
 * `split` on one character and `join`.
 *
 * Case mapping covers ASCII only; other characters are left unchanged.
 */
module Text {

  predicate IsLower(c: char) { 'a' <= c <= 'z' }
  predicate IsUpper(c: char) { 'A' <= c <= 'Z' }
  predicate IsDigit(c: char) { '0' <= c <= '9' }

  /** Some character of `s` satisfies the class `p` (a regex test such as `/[a-z]/`). */
  predicate Any(s: string, p: char -> bool) {
    exists i | 0 <= i < |s| :: p(s[i])
  }

  /** Every character of `s` satisfies the class `p` (a regex such as `/^\d+$/` minus the non-empty part). */
  predicate All(s: string, p: char -> bool) {
    forall i | 0 <= i < |s| :: p(s[i])
  }

  /** Characters beyond the Basic Multilingual Plane, which UTF-16 stores as a surrogate pair. */
  predicate IsAstral(c: char) { c as int > 0xFFFF }

  /**
   * JavaScript's `length` (and zod's `min`/`length`): the number of UTF-16
   * code units, two for an astral character and one for any other.
   */
  function Utf16Length(s: string): (n: nat)
    ensures |s| <= n <= 2 * |s|
  {
    if |s| == 0 then 0 else (if IsAstral(s[0]) then 2 else 1) + Utf16Length(s[1..])
  }

  /** Code units and characters agree exactly when no character is astral. */
  lemma {:induction false} Utf16LengthIsLength(s: string)
    ensures Utf16Length(s) == |s| <==> !Any(s, IsAstral)
  {
    if |s| > 0 {
      Utf16LengthIsLength(s[1..]);
      if Any(s[1..], IsAstral) {
        var i :| 0 <= i < |s[1..]| && IsAstral(s[1..][i]);
        assert IsAstral(s[i + 1]);
      }
      if Any(s, IsAstral) && !IsAstral(s[0]) {
        var i :| 0 <= i < |s| && IsAstral(s[i]);
        assert IsAstral(s[1..][i - 1]);
      }
    }
  }

  /** Each astral character counts one unit more than it would as a single character. */
  lemma Utf16LengthOfAstral(c: char)
    requires IsAstral(c)
    ensures Utf16Length([c]) == 2
  {
  }

  function LowerChar(c: char): char {
    if IsUpper(c) then (c as int + 32) as char else c
  }

  function UpperChar(c: char): char {
    if IsLower(c) then (c as int - 32) as char else c
  }

  /** `toLowerCase()` on the ASCII range. */
  function Lower(s: string): (r: string)
    ensures |r| == |s|
    ensures forall i | 0 <= i < |s| :: r[i] == LowerChar(s[i])
  {
    seq(|s|, i requires 0 <= i < |s| => LowerChar(s[i]))
  }

  /** `toUpperCase()` on the ASCII range. */
  function Upper(s: string): (r: string)
    ensures |r| == |s|
    ensures forall i | 0 <= i < |s| :: r[i] == UpperChar(s[i])
  {
    seq(|s|, i requires 0 <= i < |s| => UpperChar(s[i]))
  }

  predicate StartsWith(s: string, prefix: string) {
    |prefix| <= |s| && s[..|prefix|] == prefix
  }

  /** `s.includes(sub)` / Python's `sub in s`. */
  predicate Contains(s: string, sub: string) {
    exists i | 0 <= i <= |s| :: OccursAt(s, sub, i)
  }

  predicate OccursAt(s: string, sub: string, i: nat) {
    i + |sub| <= |s| && s[i..i + |sub|] == sub
  }

  /** Which runtime's notion of whitespace `trim`/`strip` uses. */
  datatype Runtime = JavaScript | Python

  /**
   * JavaScript's `String.prototype.trim` removes WhiteSpace and LineTerminator
   * code points; Python's `str.strip()` removes the characters for which
   * `str.isspace()` holds. The two sets differ in U+001C..U+001F, U+0085
   * (Python only) and U+FEFF (JavaScript only).
   */
  predicate IsSpace(rt: Runtime, c: char) {
    || c == ' ' || c == '\t' || c == '\n' || c == '\r' || c == '\U{000B}' || c == '\U{000C}'
    || c == '\U{00A0}' || c == '\U{1680}' || ('\U{2000}' <= c <= '\U{200A}')
    || c == '\U{2028}' || c == '\U{2029}' || c == '\U{202F}' || c == '\U{205F}' || c == '\U{3000}'
    || (rt == JavaScript && c == '\U{FEFF}')
    || (rt == Python && (('\U{001C}' <= c <= '\U{001F}') || c == '\U{0085}'))
  }

  function TrimStart(rt: Runtime, s: string): string
    decreases |s|
  {
    if |s| > 0 && IsSpace(rt, s[0]) then TrimStart(rt, s[1..]) else s
  }

  function TrimEnd(rt: Runtime, s: string): string
    decreases |s|
  {
    if |s| > 0 && IsSpace(rt, s[|s| - 1]) then TrimEnd(rt, s[..|s| - 1]) else s
  }

  /** `trim()` / `strip()`: `s` without its leading and trailing whitespace. */
  function Trim(rt: Runtime, s: string): string {
    TrimEnd(rt, TrimStart(rt, s))
  }

  /**
   * The trimmed string is the slice of `s` left after removing all of its
   * leading and all of its trailing whitespace: what lies outside the slice
   * is whitespace, and the slice neither starts nor ends with whitespace.
   */
  lemma TrimSpec(rt: Runtime, s: string)
    ensures var r := Trim(rt, s);
      && (exists i, j | 0 <= i <= j <= |s| ::
            && r == s[i..j]
            && (forall k | 0 <= k < i :: IsSpace(rt, s[k]))
            && (forall k | j <= k < |s| :: IsSpace(rt, s[k])))
      && (|r| == 0 || (!IsSpace(rt, r[0]) && !IsSpace(rt, r[|r| - 1])))
  {
    var i, j := TrimBounds(rt, s);
  }

  /** Where the trimmed slice starts and ends. */
  lemma {:induction false} TrimBounds(rt: Runtime, s: string) returns (i: nat, j: nat)
    ensures i <= j <= |s| && Trim(rt, s) == s[i..j]
    ensures forall k | 0 <= k < i :: IsSpace(rt, s[k])
    ensures forall k | j <= k < |s| :: IsSpace(rt, s[k])
    ensures var r := Trim(rt, s); |r| == 0 || (!IsSpace(rt, r[0]) && !IsSpace(rt, r[|r| - 1]))
  {
    i := TrimStartSlice(rt, s);
    var t := s[i..];
    var n := TrimEndSlice(rt, t);
    j := i + n;
    assert Trim(rt, s) == s[i..j];
    forall k | j <= k < |s| ensures IsSpace(rt, s[k]) {
      assert s[k] == t[k - i];
    }
    if |t[..n]| > 0 {
      TrimEndKeepsStart(rt, t);
    }
  }

  lemma {:induction false} TrimStartSlice(rt: Runtime, s: string) returns (i: nat)
    ensures i <= |s| && TrimStart(rt, s) == s[i..]
    ensures |s[i..]| == 0 || !IsSpace(rt, s[i])
    ensures forall k | 0 <= k < i :: IsSpace(rt, s[k])
    decreases |s|
  {
    if |s| > 0 && IsSpace(rt, s[0]) {
      var k := TrimStartSlice(rt, s[1..]);
      i := k + 1;
      assert s[1..][k..] == s[i..];
      forall m | 0 <= m < i ensures IsSpace(rt, s[m]) {
        if m > 0 { assert s[m] == s[1..][m - 1]; }
      }
    } else {
      i := 0;
    }
  }

  lemma {:induction false} TrimEndSlice(rt: Runtime, s: string) returns (j: nat)
    ensures j <= |s| && TrimEnd(rt, s) == s[..j]
    ensures j == 0 || !IsSpace(rt, s[j - 1])
    ensures forall k | j <= k < |s| :: IsSpace(rt, s[k])
    decreases |s|
  {
    if |s| > 0 && IsSpace(rt, s[|s| - 1]) {
      j := TrimEndSlice(rt, s[..|s| - 1]);
      assert s[..|s| - 1][..j] == s[..j];
      forall m | j <= m < |s| ensures IsSpace(rt, s[m]) {
        if m < |s| - 1 { assert s[m] == s[..|s| - 1][m]; }
      }
    } else {
      j := |s|;
    }
  }

  /** Trimming the end of a string that does not start with whitespace keeps its first character. */
  lemma {:induction false} TrimEndKeepsStart(rt: Runtime, s: string)
    requires |s| == 0 || !IsSpace(rt, s[0])
    ensures var r := TrimEnd(rt, s); |r| == 0 || r[0] == s[0]
    decreases |s|
  {
    if |s| > 0 && IsSpace(rt, s[|s| - 1]) {
      TrimEndKeepsStart(rt, s[..|s| - 1]);
    }
  }

  /** A string with no whitespace at either end is its own trim. */
  lemma TrimOfTrimmed(rt: Runtime, s: string)
    requires |s| == 0 || (!IsSpace(rt, s[0]) && !IsSpace(rt, s[|s| - 1]))
    ensures Trim(rt, s) == s
  {
  }

  /** Whitespace in front of a string is removed by `TrimStart`. */
  lemma {:induction false} TrimStartAfterSpaces(rt: Runtime, w: string, s: string)
    requires All(w, c => IsSpace(rt, c))
    ensures TrimStart(rt, w + s) == TrimStart(rt, s)
    decreases |w|
  {
    if |w| > 0 {
      assert (w + s)[1..] == w[1..] + s;
      TrimStartAfterSpaces(rt, w[1..], s);
    } else {
      assert w + s == s;
    }
  }

  /** Whitespace after a string is removed by `TrimEnd`. */
  lemma {:induction false} TrimEndBeforeSpaces(rt: Runtime, s: string, w: string)
    requires All(w, c => IsSpace(rt, c))
    ensures TrimEnd(rt, s + w) == TrimEnd(rt, s)
    decreases |w|
  {
    if |w| > 0 {
      assert (s + w)[..|s + w| - 1] == s + w[..|w| - 1];
      TrimEndBeforeSpaces(rt, s, w[..|w| - 1]);
    } else {
      assert s + w == s;
    }
  }

  /** Number of occurrences of `c` in `s`. */
  function Count(s: string, c: char): nat {
    if |s| == 0 then 0 else (if s[0] == c then 1 else 0) + Count(s[1..], c)
  }

  /**
   * `s.split(sep)` for a one-character separator, as JavaScript, Go's
   * `strings.Split` and Python agree on it: the maximal runs between
   * separators, empty runs included.
   */
  function Split(s: string, sep: char): (parts: seq<string>)
    ensures |parts| >= 1
    decreases |s|
  {
    if |s| == 0 then [""]
    else if s[0] == sep then [""] + Split(s[1..], sep)
    else
      var rest := Split(s[1..], sep);
      [[s[0]] + rest[0]] + rest[1..]
  }

  /** `parts.join(sep)`. */
  function Join(parts: seq<string>, sep: string): string {
    if |parts| == 0 then ""
    else if |parts| == 1 then parts[0]
    else parts[0] + sep + Join(parts[1..], sep)
  }

  /** Splitting yields one more part than there are separators, and no part holds a separator. */
  lemma {:induction false} SplitShape(s: string, sep: char)
    ensures |Split(s, sep)| == Count(s, sep) + 1
    ensures forall k | 0 <= k < |Split(s, sep)| :: sep !in Split(s, sep)[k]
    decreases |s|
  {
    if |s| > 0 {
      SplitShape(s[1..], sep);
    }
  }

  /** Joining the parts back with the separator restores the string. */
  lemma {:induction false} JoinSplit(s: string, sep: char)
    ensures Join(Split(s, sep), [sep]) == s
    decreases |s|
  {
    if |s| > 0 {
      JoinSplit(s[1..], sep);
      var rest := Split(s[1..], sep);
      if s[0] == sep {
        assert Split(s, sep) == [""] + rest;
        assert s == [sep] + s[1..];
      } else {
        var parts := Split(s, sep);
        assert parts == [[s[0]] + rest[0]] + rest[1..];
        if |rest| == 1 {
          assert s == [s[0]] + s[1..];
        } else {
          assert parts[1..] == rest[1..];
          assert Join(rest, [sep]) == rest[0] + [sep] + Join(rest[1..], [sep]);
          assert s == [s[0]] + s[1..];
        }
      }
    }
  }

  /** Splitting a join of separator-free parts gives the parts back. */
  lemma {:induction false} SplitJoin(parts: seq<string>, sep: char)
    requires |parts| >= 1
    requires forall k | 0 <= k < |parts| :: sep !in parts[k]
    ensures Split(Join(parts, [sep]), sep) == parts
    decreases |parts|
  {
    if |parts| == 1 {
      SplitNoSep(parts[0], sep);
    } else {
      SplitJoin(parts[1..], sep);
      SplitPrefix(parts[0], Join(parts[1..], [sep]), sep);
      assert Join(parts, [sep]) == parts[0] + [sep] + Join(parts[1..], [sep]);
      assert [parts[0]] + parts[1..] == parts;
    }
  }

  lemma {:induction false} SplitNoSep(s: string, sep: char)
    requires sep !in s
    ensures Split(s, sep) == [s]
    decreases |s|
  {
    if |s| > 0 {
      SplitNoSep(s[1..], sep);
      assert [s[0]] + s[1..] == s;
    }
  }

  /** A separator-free head followed by a separator becomes the first part. */
  lemma {:induction false} SplitPrefix(head: string, tail: string, sep: char)
    requires sep !in head
    ensures Split(head + [sep] + tail, sep) == [head] + Split(tail, sep)
    decreases |head|
  {
    var s := head + [sep] + tail;
    if |head| == 0 {
      assert s == [sep] + tail;
      assert s[1..] == tail;
    } else {
      assert s[1..] == head[1..] + [sep] + tail;
      SplitPrefix(head[1..], tail, sep);
      assert [head[0]] + head[1..] == head;
    }
  }
}
