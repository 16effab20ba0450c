/** The Python string operations the client relies on: strip, rstrip,
    startswith, find, split, join and replace. */
module Text {

  import opened Values

  /** `str.isspace()` for one character: the Unicode whitespace Python strips. */
  predicate IsSpace(c: char)
  {
    var n := c as int;
    || 9 <= n <= 13
    || 28 <= n <= 32
    || n == 0x85 || n == 0xA0 || n == 0x1680
    || 0x2000 <= n <= 0x200A
    || n == 0x2028 || n == 0x2029 || n == 0x202F || n == 0x205F || n == 0x3000
  }

  /** The character class `[A-Za-z0-9]`. */
  predicate IsAsciiAlnum(c: char)
  {
    ('A' <= c <= 'Z') || ('a' <= c <= 'z') || ('0' <= c <= '9')
  }

  predicate StartsWith(s: string, prefix: string)
  {
    |prefix| <= |s| && s[..|prefix|] == prefix
  }

  /** `pattern` occurs in `s` starting at index `i`. */
  predicate OccursAt(s: string, pattern: string, i: nat)
  {
    i + |pattern| <= |s| && s[i..i + |pattern|] == pattern
  }

  predicate Contains(s: string, pattern: string)
  {
    exists i: nat | i <= |s| :: OccursAt(s, pattern, i)
  }

  /** Removes the leading characters that satisfy `drop` (`str.lstrip`). */
  function TrimStart(s: string, drop: char -> bool): (r: string)
    ensures |r| <= |s| && r == s[|s| - |r|..]
    ensures r == [] || !drop(r[0])
    ensures forall i :: 0 <= i < |s| - |r| ==> drop(s[i])
    decreases |s|
  {
    if s != [] && drop(s[0]) then
      var r := TrimStart(s[1..], drop);
      assert s[1..][|s| - 1 - |r|..] == s[|s| - |r|..];
      r
    else s
  }

  /** Removes the trailing characters that satisfy `drop` (`str.rstrip`). */
  function TrimEnd(s: string, drop: char -> bool): (r: string)
    ensures |r| <= |s| && r == s[..|r|]
    ensures r == [] || !drop(r[|r| - 1])
    ensures forall i :: |r| <= i < |s| ==> drop(s[i])
    decreases |s|
  {
    if s != [] && drop(s[|s| - 1]) then TrimEnd(s[..|s| - 1], drop) else s
  }

  /** `str.strip()` with no argument. */
  function Strip(s: string): (r: string)
    ensures |r| <= |s|
    ensures r == [] || (!IsSpace(r[0]) && !IsSpace(r[|r| - 1]))
  {
    TrimEnd(TrimStart(s, IsSpace), IsSpace)
  }

  /** What `Strip` keeps is a slice of its input, and everything it cut on
      either side is whitespace. */
  lemma StripSlice(s: string)
    ensures var i := |s| - |TrimStart(s, IsSpace)|;
            var r := Strip(s);
            && i + |r| <= |s| && r == s[i..i + |r|]
            && (forall k :: 0 <= k < i ==> IsSpace(s[k]))
            && (forall k :: i + |r| <= k < |s| ==> IsSpace(s[k]))
  {
    var t := TrimStart(s, IsSpace);
    var r := TrimEnd(t, IsSpace);
    assert Strip(s) == r;
    InnerSlice(s, t, r, IsSpace);
  }

  /** A prefix `r` of a suffix `t` of `s`, where `t` continues with whitespace
      only, is the slice of `s` in between. */
  lemma InnerSlice(s: string, t: string, r: string, drop: char -> bool)
    requires |t| <= |s| && t == s[|s| - |t|..]
    requires forall k :: 0 <= k < |s| - |t| ==> drop(s[k])
    requires |r| <= |t| && r == t[..|r|]
    requires forall k :: |r| <= k < |t| ==> drop(t[k])
    ensures var i := |s| - |t|;
            && i + |r| <= |s| && r == s[i..i + |r|]
            && (forall k :: 0 <= k < i ==> drop(s[k]))
            && (forall k :: i + |r| <= k < |s| ==> drop(s[k]))
  {
    var i := |s| - |t|;
    forall k | i + |r| <= k < |s| ensures drop(s[k]) {
      assert s[k] == t[k - i];
    }
  }

  /** A string without surrounding whitespace is its own strip. */
  lemma StripUnchanged(s: string)
    requires s == [] || (!IsSpace(s[0]) && !IsSpace(s[|s| - 1]))
    ensures Strip(s) == s
  {
    assert TrimStart(s, IsSpace) == s;
  }

  lemma StripIdempotent(s: string)
    ensures Strip(Strip(s)) == Strip(s)
  {
    StripUnchanged(Strip(s));
  }

  /** The first occurrence of `pattern` at or after `from` (`str.find`). */
  function IndexOf(s: string, pattern: string, from: nat): (r: Option<nat>)
    ensures r.Some? ==> from <= r.value && OccursAt(s, pattern, r.value)
    ensures r.Some? ==> forall j :: from <= j < r.value ==> !OccursAt(s, pattern, j)
    ensures r.None? ==> forall j: nat :: from <= j ==> !OccursAt(s, pattern, j)
    decreases |s| - from
  {
    if from + |pattern| > |s| then None
    else if OccursAt(s, pattern, from) then Some(from)
    else IndexOf(s, pattern, from + 1)
  }

  /** `IndexOf` finds exactly the first occurrence. */
  lemma IndexOfFirst(s: string, pattern: string, k: nat)
    requires OccursAt(s, pattern, k)
    requires forall j :: 0 <= j < k ==> !OccursAt(s, pattern, j)
    ensures IndexOf(s, pattern, 0) == Some(k)
  {
  }

  /** An occurrence inside a slice is an occurrence in the whole string. */
  lemma SliceOccurrence(s: string, pattern: string, a: nat, b: nat, j: nat)
    requires a <= b <= |s|
    ensures OccursAt(s[a..b], pattern, j) ==> OccursAt(s, pattern, a + j) && j + |pattern| <= b - a
  {
    if OccursAt(s[a..b], pattern, j) {
      forall t | 0 <= t < |pattern| ensures s[a + j + t] == pattern[t] {
        assert s[a..b][j..j + |pattern|][t] == pattern[t];
      }
      assert s[a + j..a + j + |pattern|] == pattern;
    }
  }

  /** A slice of a string that lacks `pattern` lacks it too. */
  lemma SliceLacks(s: string, pattern: string, a: nat, b: nat)
    requires a <= b <= |s| && !Contains(s, pattern)
    ensures !Contains(s[a..b], pattern)
  {
    forall j: nat ensures !OccursAt(s[a..b], pattern, j) {
      SliceOccurrence(s, pattern, a, b, j);
    }
  }

  /** `s.split(sep)` for a non-empty separator: the pieces between the
      non-overlapping occurrences of `sep`, scanned from the left. */
  function Split(s: string, sep: string): (parts: seq<string>)
    requires sep != []
    ensures |parts| >= 1
    decreases |s|
  {
    match IndexOf(s, sep, 0)
    case None => [s]
    case Some(i) => [s[..i]] + Split(s[i + |sep|..], sep)
  }

  /** The first piece of a split ends where the separator first occurs. */
  lemma SplitHead(s: string, sep: string, k: nat)
    requires sep != [] && IndexOf(s, sep, 0) == Some(k)
    ensures Split(s, sep) == [s[..k]] + Split(s[k + |sep|..], sep)
  {
  }

  /** Without an occurrence of the separator a split has one piece. */
  lemma SplitWhole(s: string, sep: string)
    requires sep != [] && !Contains(s, sep)
    ensures Split(s, sep) == [s]
  {
  }

  /** `sep.join(parts)`. */
  function Join(parts: seq<string>, sep: string): string
  {
    if |parts| <= 1 then (if parts == [] then "" else parts[0])
    else parts[0] + sep + Join(parts[1..], sep)
  }

  /** Joining the pieces of a split with the same separator gives back the string. */
  lemma {:induction false} JoinSplit(s: string, sep: string)
    requires sep != []
    ensures Join(Split(s, sep), sep) == s
    decreases |s|
  {
    match IndexOf(s, sep, 0)
    case None =>
    case Some(i) =>
      var rest := s[i + |sep|..];
      JoinSplit(rest, sep);
      assert s[i..i + |sep|] == sep;
      assert s == s[..i] + sep + rest;
  }

  /** The text before the first occurrence holds none. */
  lemma BeforeFirstFree(s: string, sep: string, i: nat)
    requires sep != [] && IndexOf(s, sep, 0) == Some(i)
    ensures !Contains(s[..i], sep)
  {
    forall j: nat ensures !OccursAt(s[..i], sep, j) {
      SliceOccurrence(s, sep, 0, i, j);
    }
  }

  /** No piece of a split contains the separator. */
  lemma {:induction false} SplitPiecesFree(s: string, sep: string, k: nat)
    requires sep != [] && k < |Split(s, sep)|
    ensures !Contains(Split(s, sep)[k], sep)
    decreases |s|
  {
    match IndexOf(s, sep, 0)
    case None =>
    case Some(i) =>
      SplitHead(s, sep, i);
      if k == 0 {
        BeforeFirstFree(s, sep, i);
      } else {
        SplitPiecesFree(s[i + |sep|..], sep, k - 1);
      }
  }

  /** `s.replace(target, replacement)`: every non-overlapping occurrence of
      `target`, scanned from the left, becomes `replacement`. */
  function Replace(s: string, target: string, replacement: string): (r: string)
    requires target != []
    ensures !Contains(s, target) ==> r == s
    decreases |s|
  {
    match IndexOf(s, target, 0)
    case None => s
    case Some(i) => s[..i] + replacement + Replace(s[i + |target|..], target, replacement)
  }

  /** One occurrence of `target`, not preceded by another and not followed by
      another, is the only text `Replace` changes. */
  lemma ReplaceSingle(s: string, pre: string, target: string, post: string, replacement: string)
    requires target != [] && s == pre + target + post
    requires forall j :: 0 <= j < |pre| ==> !OccursAt(s, target, j)
    requires !Contains(post, target)
    ensures Replace(s, target, replacement) == pre + replacement + post
  {
    assert s[|pre|..|pre| + |target|] == target;
    IndexOfFirst(s, target, |pre|);
    assert s[..|pre|] == pre && s[|pre| + |target|..] == post;
  }

  /** Python defines `replace` as joining the split pieces with the new text. */
  lemma {:induction false} ReplaceIsJoinOfSplit(s: string, target: string, replacement: string)
    requires target != []
    ensures Replace(s, target, replacement) == Join(Split(s, target), replacement)
    decreases |s|
  {
    match IndexOf(s, target, 0)
    case None =>
    case Some(i) =>
      var rest := s[i + |target|..];
      ReplaceIsJoinOfSplit(rest, target, replacement);
      var tail := Split(rest, target);
      assert Split(s, target) == [s[..i]] + tail;
      assert Join([s[..i]] + tail, replacement) == s[..i] + replacement + Join(tail, replacement) by {
        assert ([s[..i]] + tail)[1..] == tail;
      }
  }
}
